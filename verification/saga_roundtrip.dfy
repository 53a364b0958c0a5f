/** Compensation does not always restore balances: paying a whole posting over and back
    makes the second payment the very envelope that would reverse the first, so the log
    answers for it and the first payment is never taken back. */
module RoundTrip {
  import opened Wrappers
  import opened Domain
  import opened Amounts
  import opened Store
  import opened Events
  import opened Sorting
  import opened Canonical
  import opened Validate
  import opened Runs
  import opened RunProofs
  import opened Resolution
  import opened ResolutionTheorems
  import opened LedgerOps
  import opened Intents
  import opened Saga

  /** A payment of one whole posting. */
  function WholePayment(q: PostingId, to: AccountId, x: AssetId, v: Cent, payer: Option<AccountId>, snaps: seq<AccountSnapshotId>): Envelope {
    Envelope([q], [NewPosting(to, x, v, payer)], snaps, DEFAULT_BOOK, [])
  }

  predicate Open(s: State, a: AccountId) {
    var h := Head(s, a);
    h.Some? && !h.value.IsFrozen() && !h.value.IsClosed() && !h.value.ForbidsOverdraft()
  }

  /** `from` can pay away its active posting `q`, worth `v`. */
  ghost predicate CanPay(s: State, q: PostingId, from: AccountId, to: AccountId, x: AssetId, v: Cent) {
    && from != to && v > 0 && Open(s, from) && Open(s, to) && DEFAULT_BOOK !in s.books
    && q in s.active && s.active[q] == Posting(q, from, x, v)
    && Fits(LiveSum(s, OfHolder(from, x))) && Fits(LiveSum(s, OfHolder(to, x)))
  }

  function Pin(digest: Digest, s: State, a: AccountId): seq<AccountSnapshotId>
    requires Head(s, a).Some?
  {
    [AccountSnapshotId(a, AccountHash(digest, Head(s, a).value))]
  }

  lemma OwnersOfOne(e: Envelope, a: AccountId)
    requires |e.creates| == 1 && e.creates[0].owner == a
    ensures CreateOwners(e) == [a]
  {
    assert seq(|e.creates|, i requires 0 <= i < |e.creates| => e.creates[i].owner) == [a];
    assert SortDedup(AccountLess, [a]) == Insert(AccountLess, a, SortDedup(AccountLess, []));
  }

  lemma PinnedPayment(digest: Digest, s: State, q: PostingId, to: AccountId, x: AssetId, v: Cent, payer: Option<AccountId>)
    requires Head(s, to).Some?
    ensures WithSnapshots(digest, s, WholePayment(q, to, x, v, payer, [])) == Some(WholePayment(q, to, x, v, payer, Pin(digest, s, to)))
    ensures SnapshotsOf(digest, s, CreateOwners(WholePayment(q, to, x, v, payer, Pin(digest, s, to)))) == Some(Pin(digest, s, to))
  {
    OwnersOfOne(WholePayment(q, to, x, v, payer, []), to);
    OwnersOfOne(WholePayment(q, to, x, v, payer, Pin(digest, s, to)), to);
    var got := SnapshotsOf(digest, s, [to]).value;
    assert got == Pin(digest, s, to);
  }

  /** The payer is a mere annotation: it does not enter the content hash. */
  lemma PayerNotHashed(digest: Digest, q: PostingId, to: AccountId, x: AssetId, v: Cent, payer: Option<AccountId>, snaps: seq<AccountSnapshotId>)
    requires |snaps| == 1
    ensures EnvelopeIdOf(digest, WholePayment(q, to, x, v, payer, snaps)) == EnvelopeIdOf(digest, WholePayment(q, to, x, v, None, snaps))
  {
    var p, b := WholePayment(q, to, x, v, None, snaps), WholePayment(q, to, x, v, payer, snaps);
    assert Economic(b) == p && Economic(p) == p;
    hide EnvelopeBytes;
    EnvelopeBytesIdentify(p, b);
  }

  lemma BareReversal(s: State, t: EnvelopeId, q: PostingId, from: AccountId, to: AccountId, x: AssetId, v: Cent,
      payer: Option<AccountId>, snaps: seq<AccountSnapshotId>)
    requires t in s.transfers && s.transfers[t].envelope == WholePayment(q, to, x, v, payer, snaps) && s.transfers[t].receipt == Receipt(t)
    requires q in s.immutable && s.immutable[q] == Posting(q, from, x, v)
    ensures ReversalOf(s, t) == Some(WholePayment(PostingId(t, 0), from, x, v, None, []))
  {
    var e := ReversalOf(s, t).value;
    assert e.consumes == [PostingId(t, 0)];
    assert e.creates == [NewPosting(from, x, v, None)];
  }

  /** The reversal of a whole payment is the whole payment back. */
  lemma ReversalIsPaymentBack(digest: Digest, s: State, t: EnvelopeId, q: PostingId, from: AccountId, to: AccountId, x: AssetId, v: Cent,
      payer: Option<AccountId>, snaps: seq<AccountSnapshotId>)
    requires Inv(s) && t in s.transfers && s.transfers[t].envelope == WholePayment(q, to, x, v, payer, snaps)
    requires q in s.immutable && s.immutable[q] == Posting(q, from, x, v) && Head(s, from).Some?
    ensures Reversal(digest, s, t) == Some(WholePayment(PostingId(t, 0), from, x, v, None, Pin(digest, s, from)))
  {
    hide Inv, WithSnapshots, ReversalOf, WholePayment;
    StoredReceipt(s, t);
    BareReversal(s, t, q, from, to, x, v, payer, snaps);
    PinnedPayment(digest, s, PostingId(t, 0), from, x, v, None);
  }

  // ----- a whole payment commits -----

  ghost function LoadedForPayment(s: State, q: PostingId, from: AccountId, to: AccountId, x: AssetId, v: Cent): Loaded
    requires CanPay(s, q, from, to, x, v)
  {
    Loaded(
      [Posting(q, from, x, v)],
      map[from := Head(s, from).value, to := Head(s, to).value],
      map[(from, x) := LiveSum(s, OfHolder(from, x)), (to, x) := LiveSum(s, OfHolder(to, x))],
      None)
  }

  lemma PaymentRequires(digest: Digest, s: State, q: PostingId, from: AccountId, to: AccountId, x: AssetId, v: Cent, payer: Option<AccountId>)
    requires CanPay(s, q, from, to, x, v)
    ensures var e := WholePayment(q, to, x, v, payer, Pin(digest, s, to)); var l := LoadedForPayment(s, q, from, to, x, v);
      && (forall a :: a in Required(e, l.consumed).accounts <==> a == from || a == to)
      && (forall k :: k in Required(e, l.consumed).balances <==> k == (from, x) || k == (to, x))
      && (forall a :: a in Owners(e, l.consumed) <==> a == from || a == to)
  {
    var e := WholePayment(q, to, x, v, payer, Pin(digest, s, to));
    var l := LoadedForPayment(s, q, from, to, x, v);
    assert OwnerWalk(e, l.consumed) == [to, from];
    assert KeyWalk(e, l.consumed) == [(to, x), (from, x)];
    assert SnapshotAccounts(e) == [to];
  }

  lemma PaymentReads(s: State, q: PostingId, from: AccountId, to: AccountId, x: AssetId, v: Cent)
    requires CanPay(s, q, from, to, x, v)
    ensures var past, l := [s], LoadedForPayment(s, q, from, to, x, v);
      && (forall a :: a in l.accounts ==> exists i :: 0 <= i < |past| && Head(past[i], a) == Some(l.accounts[a]))
      && (forall key :: key in l.balances ==> exists i :: 0 <= i < |past| && l.balances[key] == LiveSum(past[i], Holding(key)))
  {
    hide LiveSum;
    var past, l := [s], LoadedForPayment(s, q, from, to, x, v);
    forall a | a in l.accounts ensures exists i :: 0 <= i < |past| && Head(past[i], a) == Some(l.accounts[a]) {
      assert Head(past[0], a) == Some(l.accounts[a]);
    }
    forall key | key in l.balances ensures exists i :: 0 <= i < |past| && l.balances[key] == LiveSum(past[i], Holding(key)) {
      assert l.balances[key] == LiveSum(past[0], Holding(key));
    }
  }

  lemma PaymentKeys(digest: Digest, s: State, q: PostingId, from: AccountId, to: AccountId, x: AssetId, v: Cent, payer: Option<AccountId>)
    requires CanPay(s, q, from, to, x, v)
    ensures var e, l := WholePayment(q, to, x, v, payer, Pin(digest, s, to)), LoadedForPayment(s, q, from, to, x, v);
      l.accounts.Keys == (set a | a in Required(e, l.consumed).accounts) && l.balances.Keys == (set key | key in Required(e, l.consumed).balances)
  {
    hide Required, LiveSum, Owners;
    PaymentRequires(digest, s, q, from, to, x, v, payer);
  }

  lemma PaymentLoads(digest: Digest, s: State, q: PostingId, from: AccountId, to: AccountId, x: AssetId, v: Cent, payer: Option<AccountId>)
    requires Inv(s) && CanPay(s, q, from, to, x, v)
    ensures LoadedNow(s, WholePayment(q, to, x, v, payer, Pin(digest, s, to)), LoadedForPayment(s, q, from, to, x, v))
  {
    hide Required, LiveSum, Owners, Inv;
    ActiveRow(s, q);
    var past := [s];
    assert PostingsRead(past[0], [q], [Posting(q, from, x, v)]);
    PaymentKeys(digest, s, q, from, to, x, v, payer);
    PaymentReads(s, q, from, to, x, v);
  }

  lemma PaymentSums(inp: PlanInput, q: PostingId, from: AccountId, to: AccountId, x: AssetId, v: Cent, sl: Slice)
    requires inp.consumedPostings == [Posting(q, from, x, v)] && inp.envelope.consumes == [q]
    requires |inp.envelope.creates| == 1 && inp.envelope.creates[0].owner == to && inp.envelope.creates[0].asset == x && inp.envelope.creates[0].value == v
    ensures Rows(inp) == map[q := Posting(q, from, x, v)]
    ensures Consumed(inp, sl, 0) == 0 && Consumed(inp, sl, 1) == (if Covers(sl, from, x) then v else 0)
    ensures Created(inp, sl, 0) == 0 && Created(inp, sl, 1) == (if Covers(sl, to, x) then v else 0)
  {
    var p := Posting(q, from, x, v);
    assert [p][..0] == [] && Put(map[], [p]) == Put(map[], [p][..0])[q := p];
    assert [q][..1] == [q] && [q][..0] == [];
    var cs := inp.envelope.creates;
    assert cs[..1] == cs && cs[..0] == [];
    assert SumIds(sl, Rows(inp), [q]) == SumIds(sl, Rows(inp), [q][..0]) + Weight(sl, p);
    assert SumNew(sl, cs) == SumNew(sl, cs[..0]) + (if Covers(sl, to, x) then v else 0);
  }

  ghost predicate IsPayment(digest: Digest, s: State, q: PostingId, from: AccountId, to: AccountId, x: AssetId, v: Cent, payer: Option<AccountId>, inp: PlanInput) {
    && CanPay(s, q, from, to, x, v)
    && inp == InputOf(WholePayment(q, to, x, v, payer, Pin(digest, s, to)), LoadedForPayment(s, q, from, to, x, v))
  }

  lemma PaymentArithmetic(digest: Digest, s: State, q: PostingId, from: AccountId, to: AccountId, x: AssetId, v: Cent, payer: Option<AccountId>, inp: PlanInput)
    requires IsPayment(digest, s, q, from, to, x, v, payer, inp)
    ensures Conserves(inp) && DeltasFit(inp)
  {
    hide Consumed, Created, LiveSum, Conserves, DeltasFit, Rows;
    forall sl: Slice ensures Flows(inp, from, to, x, v, sl) {
      PaymentSums(inp, q, from, to, x, v, sl);
    }
    FlowsConserve(inp, from, to, x, v);
    FlowsFit(inp, from, to, x, v);
  }

  /** One value out of one holding and into another. */
  predicate Flows(inp: PlanInput, from: AccountId, to: AccountId, x: AssetId, v: Cent, sl: Slice) {
    && |inp.envelope.consumes| == |inp.envelope.creates| == 1
    && Consumed(inp, sl, 0) == 0 && Consumed(inp, sl, 1) == (if Covers(sl, from, x) then v else 0)
    && Created(inp, sl, 0) == 0 && Created(inp, sl, 1) == (if Covers(sl, to, x) then v else 0)
  }

  lemma FlowsConserve(inp: PlanInput, from: AccountId, to: AccountId, x: AssetId, v: Cent)
    requires v > 0 && forall sl :: Flows(inp, from, to, x, v, sl)
    ensures Conserves(inp)
  {
    forall a: AssetId ensures Flows(inp, from, to, x, v, OfAsset(a)) {
    }
    hide Consumed, Created;
  }

  lemma FlowsFit(inp: PlanInput, from: AccountId, to: AccountId, x: AssetId, v: Cent)
    requires v > 0 && forall sl :: Flows(inp, from, to, x, v, sl)
    ensures DeltasFit(inp)
  {
    forall key: BalanceKey ensures Flows(inp, from, to, x, v, Holding(key)) {
    }
    hide Consumed, Created;
  }

  lemma PaymentRules(digest: Digest, s: State, q: PostingId, from: AccountId, to: AccountId, x: AssetId, v: Cent, payer: Option<AccountId>, inp: PlanInput)
    requires IsPayment(digest, s, q, from, to, x, v, payer, inp)
    ensures NonEmpty(inp) && Distinct(inp.envelope.consumes) && Found(inp) && OwnersUsable(inp)
    ensures SnapshotsCurrent(digest, inp) && NegativesPermitted(inp) && inp.book.None?
  {
    PaymentRequires(digest, s, q, from, to, x, v, payer);
    PaymentSums(inp, q, from, to, x, v, OfAsset(x));
    hide Required, Owners, LiveSum, Rows;
  }

  lemma PaymentAcceptable(digest: Digest, s: State, q: PostingId, from: AccountId, to: AccountId, x: AssetId, v: Cent, payer: Option<AccountId>, inp: PlanInput)
    requires IsPayment(digest, s, q, from, to, x, v, payer, inp)
    ensures Acceptable(digest, inp)
  {
    PaymentRules(digest, s, q, from, to, x, v, payer, inp);
    PaymentArithmetic(digest, s, q, from, to, x, v, payer, inp);
    hide Conserves, DeltasFit, LiveSum, Required, Found, OwnersUsable, NonEmpty, SnapshotsCurrent, NegativesPermitted, Distinct;
    TouchedOwned(inp);
    forall key | key in Validate.Touched(inp) ensures FloorOk(inp, key) {
    }
  }

  lemma {:induction false} AllOpen(s: State, involved: seq<AccountId>)
    requires forall a :: a in involved ==> Open(s, a)
    ensures LifecycleGuard(s, involved).None?
  {
    if involved != [] {
      assert Open(s, involved[0]);
      AllOpen(s, involved[1..]);
    }
  }

  function Payment(digest: Digest, s: State, q: PostingId, to: AccountId, x: AssetId, v: Cent, payer: Option<AccountId>): Envelope
    requires Head(s, to).Some?
  {
    WholePayment(q, to, x, v, payer, Pin(digest, s, to))
  }

  /** What a whole payment leaves: one posting gone, one in its place. */
  ghost predicate Paid(s: State, q: PostingId, tid: EnvelopeId, to: AccountId, x: AssetId, v: Cent, s': State) {
    && s'.active == (s.active - {q})[PostingId(tid, 0) := Posting(PostingId(tid, 0), to, x, v)]
    && s'.accounts == s.accounts && s'.books == s.books
  }

  /** Nothing but its id being taken stops a whole payment between open accounts. */
  lemma PaymentCommits(digest: Digest, s: State, q: PostingId, from: AccountId, to: AccountId, x: AssetId, v: Cent, payer: Option<AccountId>, ts: i64)
      returns (s': State)
    requires Inv(s) && CanPay(s, q, from, to, x, v) && EnvelopeIdOf(digest, Payment(digest, s, q, to, x, v, payer)) !in s.transfers
    ensures var e := Payment(digest, s, q, to, x, v, payer); var tid := EnvelopeIdOf(digest, e);
      CommitsPinned(digest, s, e, ts, s', Ok(Receipt(tid))) && Paid(s, q, tid, to, x, v, s')
  {
    var e, l := Payment(digest, s, q, to, x, v, payer), LoadedForPayment(s, q, from, to, x, v);
    var tid := EnvelopeIdOf(digest, e);
    var req := RequestOf(digest, e, l, ts);
    s' := Applied(s, req);
    LogParts(s);
    hide Inv, TablesOk, SpentOk, ProvenanceOk, LiveSum;
    PaymentLoads(digest, s, q, from, to, x, v, payer);
    PaymentAcceptable(digest, s, q, from, to, x, v, payer, InputOf(e, l));
    PaymentAccepted(digest, s, q, from, to, x, v, payer, ts);
    hide Acceptable, LoadedNow, Commits, RequestOf;
    assert Submitted(digest, s, e, l, ts, s', Ok(Committed(Receipt(tid))));
    assert AnswerOf(Ok(Committed(Receipt(tid)))) == Ok(Receipt(tid));
  }

  lemma PaymentAccepted(digest: Digest, s: State, q: PostingId, from: AccountId, to: AccountId, x: AssetId, v: Cent, payer: Option<AccountId>, ts: i64)
    requires CanPay(s, q, from, to, x, v) && EnvelopeIdOf(digest, Payment(digest, s, q, to, x, v, payer)) !in s.transfers
    ensures var e := Payment(digest, s, q, to, x, v, payer); var req := RequestOf(digest, e, LoadedForPayment(s, q, from, to, x, v), ts);
      && Commits(s, req, Applied(s, req), Ok(Committed(Receipt(req.transferId))))
      && Paid(s, q, req.transferId, to, x, v, Applied(s, req))
  {
    var e, l := Payment(digest, s, q, to, x, v, payer), LoadedForPayment(s, q, from, to, x, v);
    var req := RequestOf(digest, e, l, ts);
    PaymentPassesGuard(digest, s, q, from, to, x, v, payer, ts);
    PaymentPassesFloor(digest, s, q, from, to, x, v, payer, ts);
    hide Guard, FloorHolds, LiveSum, EnvelopeIdOf, Applied, Commits, Paid;
    assert req.create == [Posting(PostingId(req.transferId, 0), to, x, v)] && req.consume == [q];
    PassedCommits(s, req);
    PaymentRows(s, q, req, to, x, v);
  }

  lemma PassedCommits(s: State, req: CommitRequest)
    requires Guard(s, req).None? && FloorHolds(s, req) && req.record.receipt == Receipt(req.transferId)
    ensures Commits(s, req, Applied(s, req), Ok(Committed(Receipt(req.transferId))))
  {
    hide Guard, FloorHolds, Applied;
  }

  lemma PaymentPassesGuard(digest: Digest, s: State, q: PostingId, from: AccountId, to: AccountId, x: AssetId, v: Cent, payer: Option<AccountId>, ts: i64)
    requires CanPay(s, q, from, to, x, v) && EnvelopeIdOf(digest, Payment(digest, s, q, to, x, v, payer)) !in s.transfers
    ensures Guard(s, RequestOf(digest, Payment(digest, s, q, to, x, v, payer), LoadedForPayment(s, q, from, to, x, v), ts)).None?
  {
    var e, l := Payment(digest, s, q, to, x, v, payer), LoadedForPayment(s, q, from, to, x, v);
    PaymentRequires(digest, s, q, from, to, x, v, payer);
    hide Owners, Required, LiveSum, EnvelopeIdOf, Append;
    AllOpen(s, RequestOf(digest, e, l, ts).involved);
    assert DoubleSpendGuard(s, [q]).None? by {
      assert [q][1..] == [];
    }
  }

  lemma PaymentPassesFloor(digest: Digest, s: State, q: PostingId, from: AccountId, to: AccountId, x: AssetId, v: Cent, payer: Option<AccountId>, ts: i64)
    requires CanPay(s, q, from, to, x, v)
    ensures FloorHolds(s, RequestOf(digest, Payment(digest, s, q, to, x, v, payer), LoadedForPayment(s, q, from, to, x, v), ts))
  {
    var e, l := Payment(digest, s, q, to, x, v, payer), LoadedForPayment(s, q, from, to, x, v);
    PaymentRequires(digest, s, q, from, to, x, v, payer);
    hide Owners, Required, LiveSum, EnvelopeIdOf, Append;
    AllOpen(s, RequestOf(digest, e, l, ts).involved);
  }

  lemma PaymentRows(s: State, q: PostingId, req: CommitRequest, to: AccountId, x: AssetId, v: Cent)
    requires req.consume == [q] && req.create == [Posting(PostingId(req.transferId, 0), to, x, v)]
    ensures Paid(s, q, req.transferId, to, x, v, Applied(s, req))
  {
    hide Append, PutAbsent;
    var p := Posting(PostingId(req.transferId, 0), to, x, v);
    assert IdSet([q]) == {q};
    assert [p][..0] == [] && Put(s.active - {q}, [p]) == Put(s.active - {q}, [p][..0])[p.id := p];
  }

  // ----- the resolver picks that one posting -----

  ghost predicate OnlyPosting(s: State, a: AccountId, x: AssetId, q: PostingId) {
    forall id :: id in s.active && s.active[id].owner == a && s.active[id].asset == x ==> id == q
  }

  function PayTransfer(from: AccountId, to: AccountId, x: AssetId, v: Cent): Transfer {
    Transfer([Movement(from, to, x, v)], DEFAULT_BOOK, [])
  }

  lemma OneMovementDraft(from: AccountId, to: AccountId, x: AssetId, v: Cent)
    requires from != to && v > 0
    ensures DraftOf([Movement(from, to, x, v)], MovementDraft([NewPosting(to, x, v, Some(from))], [Debit(Key(from, x), v)]))
  {
    var m := Movement(from, to, x, v);
    forall k ensures NetDebit([m], k) == if k == Key(from, x) then v else 0 {
      assert [m][..0] == [];
      assert NetDebit([m], k) == NetDebit([m][..0], k) + (if Source(m) == k then v else 0);
    }
    hide NetDebit;
    var d := MovementDraft([NewPosting(to, x, v, Some(from))], [Debit(Key(from, x), v)]);
    assert d.debits[0].key == Key(from, x);
  }

  lemma SinglePosting(p: Posting)
    requires p.value > 0
    ensures Positives([p]) == [p] && SumValues([p]) == p.value && LargestFirst([p]) == [p]
  {
    assert [p][..0] == [];
    assert Positives([p]) == Positives([p][..0]) + [p];
    assert SumValues([p]) == SumValues([p][..0]) + p.value;
    assert LargestFirst([p]) == InsertByValue(LargestFirst([p][..0]), p);
  }

  lemma SingleFits(p: Posting)
    requires SumValues([p]) == p.value
    ensures RunningFits([p])
  {
    forall j | 0 <= j <= 1 ensures Fits(SumValues([p][..j])) {
      assert [p][..j] == if j == 0 then [] else [p];
    }
  }

  lemma ExactCover(p: Posting, mayOverdraw: bool)
    requires p.value > 0
    ensures Cover(Debit(Key(p.owner, p.asset), p.value), [p], mayOverdraw) == Ok(Selection([p], []))
  {
    SinglePosting(p);
    SingleFits(p);
    assert Taken([p], p.value, 0) == 1;
    hide Positives, SumValues, LargestFirst, Taken, RunningFits;
    assert [p][..1] == [p];
  }

  function OneDebit(from: AccountId, to: AccountId, x: AssetId, v: Cent): MovementDraft {
    MovementDraft([NewPosting(to, x, v, Some(from))], [Debit(Key(from, x), v)])
  }

  lemma PaymentOffered(s: State, q: PostingId, from: AccountId, to: AccountId, x: AssetId, v: Cent)
    requires CanPay(s, q, from, to, x, v) && OnlyPosting(s, from, x, q)
    ensures IntentLoaded(s, OneDebit(from, to, x, v), map[Key(from, x) := [Posting(q, from, x, v)]], map[from := Head(s, from).value])
  {
    hide LiveSum;
    var draft, p := OneDebit(from, to, x, v), Posting(q, from, x, v);
    assert draft.debits[0] == Debit(Key(from, x), v);
    assert Offers(s, Key(from, x), [p]);
  }

  lemma PaymentResolves(digest: Digest, s: State, q: PostingId, from: AccountId, to: AccountId, x: AssetId, v: Cent)
    requires CanPay(s, q, from, to, x, v) && OnlyPosting(s, from, x, q)
    ensures ResolvesTo(digest, s, PayTransfer(from, to, x, v), Payment(digest, s, q, to, x, v, Some(from)))
  {
    hide DraftOf, IntentLoaded, Resolved, SnapshotsOf, OnlyPosting, LiveSum;
    var e := Payment(digest, s, q, to, x, v, Some(from));
    var p := Posting(q, from, x, v);
    OneMovementDraft(from, to, x, v);
    PinnedPayment(digest, s, q, to, x, v, Some(from));
    PaymentOffered(s, q, from, to, x, v);
    PaymentCovered(PayTransfer(from, to, x, v), OneDebit(from, to, x, v), map[Key(from, x) := [p]], map[from := Head(s, from).value], p, e.(snapshots := []));
  }

  lemma PaymentCovered(t: Transfer, draft: MovementDraft, av: Availability, accounts: Accounts, p: Posting, e: Envelope)
    requires p.value > 0 && draft.debits == [Debit(Key(p.owner, p.asset), p.value)] && |draft.creates| == 1
    requires av == map[Key(p.owner, p.asset) := [p]] && t.book == DEFAULT_BOOK && t.metadata == []
    requires e == Envelope([p.id], draft.creates, [], DEFAULT_BOOK, [])
    ensures Resolved(t, draft, av, accounts) == Ok(e)
  {
    hide CoverAll;
    OneCovered(draft.debits, av, accounts, p);
    assert PostingIds([p]) == [p.id];
    assert draft.creates + [] == draft.creates;
  }

  lemma OneCovered(ds: seq<Debit>, av: Availability, accounts: Accounts, p: Posting)
    requires p.value > 0 && ds == [Debit(Key(p.owner, p.asset), p.value)] && av == map[Key(p.owner, p.asset) := [p]]
    ensures CoverAll(ds, av, accounts) == Ok(Selection([p], []))
  {
    hide Cover, CoverAll;
    var d := Debit(Key(p.owner, p.asset), p.value);
    ExactCover(p, MayOverdraw(accounts, p.owner));
    assert CoverIn(d, av, accounts) == Ok(Selection([p], []));
    hide CoverIn;
    CoverSingle(d, av, accounts);
  }

  // ----- over and back -----

  /** One whole payment done: the log has it, and only the two balances moved. */
  ghost predicate PaymentDone(digest: Digest, s: State, q: PostingId, from: AccountId, to: AccountId, x: AssetId, v: Cent, e: Envelope, s': State) {
    var tid := EnvelopeIdOf(digest, e);
    && Inv(s') && Grows(s, s') && Paid(s, q, tid, to, x, v, s')
    && (forall t :: t in s'.transfers <==> t == tid || t in s.transfers) && s'.transfers[tid].envelope == e
    && LiveSum(s', OfHolder(from, x)) == LiveSum(s, OfHolder(from, x)) - v
    && LiveSum(s', OfHolder(to, x)) == LiveSum(s, OfHolder(to, x)) + v
  }

  lemma PayStep(digest: Digest, s: State, q: PostingId, from: AccountId, to: AccountId, x: AssetId, v: Cent, payer: Option<AccountId>, ts: i64)
      returns (s': State)
    requires Inv(s) && CanPay(s, q, from, to, x, v) && EnvelopeIdOf(digest, Payment(digest, s, q, to, x, v, payer)) !in s.transfers
    ensures var e := Payment(digest, s, q, to, x, v, payer);
      CommitsPinned(digest, s, e, ts, s', Ok(Receipt(EnvelopeIdOf(digest, e)))) && PaymentDone(digest, s, q, from, to, x, v, e, s')
  {
    hide Inv, Grows, CommitsPinned, Recorded, LiveSum, EnvelopeIdOf, PaymentDone, Paid;
    var e := Payment(digest, s, q, to, x, v, payer);
    s' := PaymentCommits(digest, s, q, from, to, x, v, payer, ts);
    ActiveRow(s, q);
    CommitDecides(digest, s, e, ts, s', Ok(Receipt(EnvelopeIdOf(digest, e))));
    PaidDone(digest, s, q, from, to, x, v, e, s');
  }

  lemma PaidDone(digest: Digest, s: State, q: PostingId, from: AccountId, to: AccountId, x: AssetId, v: Cent, e: Envelope, s': State)
    requires Inv(s) && Inv(s') && Grows(s, s') && Recorded(digest, s, e, s') && Paid(s, q, EnvelopeIdOf(digest, e), to, x, v, s')
    requires from != to && q in s.immutable && s.immutable[q] == Posting(q, from, x, v)
    requires e.consumes == [q] && |e.creates| == 1 && e.creates[0].owner == to && e.creates[0].asset == x && e.creates[0].value == v
    ensures PaymentDone(digest, s, q, from, to, x, v, e, s')
  {
    hide Inv, Grows, Recorded, LiveSum, EnvelopeIdOf, Paid;
    RecordedEffect(digest, s, e, s');
    RecordedSum(digest, s, e, s', OfHolder(from, x));
    RecordedSum(digest, s, e, s', OfHolder(to, x));
    PaymentWeights(s.immutable, e, q, from, to, x, v, OfHolder(from, x));
    PaymentWeights(s.immutable, e, q, from, to, x, v, OfHolder(to, x));
  }

  lemma ActiveRow(s: State, q: PostingId)
    requires Inv(s) && q in s.active
    ensures q in s.immutable && s.immutable[q] == s.active[q]
  {
  }

  lemma PaymentWeights(rows: map<PostingId, Posting>, e: Envelope, q: PostingId, from: AccountId, to: AccountId, x: AssetId, v: Cent, sl: Slice)
    requires e.consumes == [q] && |e.creates| == 1 && e.creates[0].owner == to && e.creates[0].asset == x && e.creates[0].value == v
    requires q in rows && rows[q] == Posting(q, from, x, v)
    ensures SumNew(sl, e.creates) == (if Covers(sl, to, x) then v else 0)
    ensures SumIds(sl, rows, e.consumes) == (if Covers(sl, from, x) then v else 0)
  {
    assert e.creates[..0] == [] && [q][..0] == [];
    assert SumNew(sl, e.creates[..0]) == 0 && SumIds(sl, rows, [q][..0]) == 0;
  }

  ghost predicate NoneOf(s: State, b: AccountId, x: AssetId) {
    forall id :: id in s.active && s.active[id].asset == x ==> s.active[id].owner != b
  }

  /** `a` holds one posting of `x` worth `v`, `b` holds none, and the balances have room. */
  ghost predicate Setting(s: State, q: PostingId, a: AccountId, b: AccountId, x: AssetId, v: Cent) {
    && Inv(s) && CanPay(s, q, a, b, x, v) && OnlyPosting(s, a, x, q)
    && NoneOf(s, b, x)
    && Fits(LiveSum(s, OfHolder(a, x)) - v) && Fits(LiveSum(s, OfHolder(b, x)) + v)
  }

  lemma OnlyThePaid(s: State, q: PostingId, tid: EnvelopeId, a: AccountId, b: AccountId, x: AssetId, v: Cent, s': State)
    requires Paid(s, q, tid, b, x, v, s') && NoneOf(s, b, x)
    ensures OnlyPosting(s', b, x, PostingId(tid, 0))
  {
  }

  lemma PaidCanPay(s: State, q: PostingId, tid: EnvelopeId, a: AccountId, b: AccountId, x: AssetId, v: Cent, s': State)
    requires CanPay(s, q, a, b, x, v) && Paid(s, q, tid, b, x, v, s')
    requires Fits(LiveSum(s', OfHolder(a, x))) && Fits(LiveSum(s', OfHolder(b, x)))
    ensures CanPay(s', PostingId(tid, 0), b, a, x, v)
  {
    hide LiveSum;
  }

  lemma MissingPayerFails(digest: Digest, s: State, c: AccountId, to: AccountId, x: AssetId, v: Cent, ts: i64)
    requires Head(s, c).None?
    ensures CommitsTransfer(digest, s, PayTransfer(c, to, x, v), ts, s, Err(StoreFailed))
  {
    var m := Movement(c, to, x, v);
    assert [m][..0] == [] && [m][..1] == [m];
    assert NetDebit([m], Source(m)) == NetDebit([m][..0], Source(m)) + v;
    assert !DraftOverflows([m]);
    assert !BothExist(s, [m][0]);
  }

  /** The three commits of the run, in the states they happen in. */
  datatype Run = Run(s0: State, s1: State, s2: State, s3: State, t1: EnvelopeId, t2: EnvelopeId, t3: EnvelopeId)

  /** The ids a digest gives the three envelopes are new and different. */
  ghost predicate FreshRun(digest: Digest, s: State, q: PostingId, a: AccountId, b: AccountId, x: AssetId, v: Cent)
    requires Head(s, a).Some? && Head(s, b).Some?
  {
    var t1 := EnvelopeIdOf(digest, Payment(digest, s, q, b, x, v, Some(a)));
    var t2 := EnvelopeIdOf(digest, Payment(digest, s, PostingId(t1, 0), a, x, v, Some(b)));
    var t3 := EnvelopeIdOf(digest, Payment(digest, s, PostingId(t2, 0), b, x, v, None));
    t1 !in s.transfers && t2 !in s.transfers && t3 !in s.transfers && t1 != t2 && t2 != t3 && t1 != t3
  }

  lemma Pays(digest: Digest, s: State, q: PostingId, a: AccountId, b: AccountId, x: AssetId, v: Cent) returns (run: Run)
    requires Setting(s, q, a, b, x, v) && FreshRun(digest, s, q, a, b, x, v)
    ensures run.s0 == s && Carried(digest, q, a, b, x, v, run)
  {
    hide Inv, Grows, LiveSum, EnvelopeIdOf, CommitsPinned;
    var e1 := Payment(digest, s, q, b, x, v, Some(a));
    var s1 := PayStep(digest, s, q, a, b, x, v, Some(a), 0);
    var t1 := EnvelopeIdOf(digest, e1);
    OnlyThePaid(s, q, t1, a, b, x, v, s1);
    PaidCanPay(s, q, t1, a, b, x, v, s1);
    var q1 := PostingId(t1, 0);
    var e2 := Payment(digest, s1, q1, a, x, v, Some(b));
    var s2 := PayStep(digest, s1, q1, b, a, x, v, Some(b), 0);
    var t2 := EnvelopeIdOf(digest, e2);
    PaidCanPay(s1, q1, t2, b, a, x, v, s2);
    var e3 := Payment(digest, s2, PostingId(t2, 0), b, x, v, None);
    var s3 := PayStep(digest, s2, PostingId(t2, 0), a, b, x, v, None, 0);
    run := Run(s, s1, s2, s3, t1, t2, EnvelopeIdOf(digest, e3));
  }

  /** `a` pays `b`, `b` pays back, and the payment back is reversed. */
  ghost predicate Carried(digest: Digest, q: PostingId, a: AccountId, b: AccountId, x: AssetId, v: Cent, run: Run) {
    && Inv(run.s0) && Head(run.s0, a).Some? && Head(run.s0, b).Some? && run.s1.accounts == run.s2.accounts == run.s3.accounts == run.s0.accounts
    && var e1 := Payment(digest, run.s0, q, b, x, v, Some(a));
       var e2 := Payment(digest, run.s0, PostingId(run.t1, 0), a, x, v, Some(b));
       var e3 := Payment(digest, run.s0, PostingId(run.t2, 0), b, x, v, None);
      && run.t1 == EnvelopeIdOf(digest, e1) && run.t2 == EnvelopeIdOf(digest, e2) && run.t3 == EnvelopeIdOf(digest, e3)
      && CanPay(run.s0, q, a, b, x, v) && CanPay(run.s1, PostingId(run.t1, 0), b, a, x, v) && CanPay(run.s2, PostingId(run.t2, 0), a, b, x, v)
      && CommitsPinned(digest, run.s0, e1, 0, run.s1, Ok(Receipt(run.t1))) && PaymentDone(digest, run.s0, q, a, b, x, v, e1, run.s1)
      && CommitsPinned(digest, run.s1, e2, 0, run.s2, Ok(Receipt(run.t2))) && PaymentDone(digest, run.s1, PostingId(run.t1, 0), b, a, x, v, e2, run.s2)
      && CommitsPinned(digest, run.s2, e3, 0, run.s3, Ok(Receipt(run.t3))) && PaymentDone(digest, run.s2, PostingId(run.t2, 0), a, b, x, v, e3, run.s3)
      && OnlyPosting(run.s0, a, x, q) && OnlyPosting(run.s1, b, x, PostingId(run.t1, 0))
  }

  /** A leg that pays a whole posting. */
  lemma LegPays(digest: Digest, s: State, q: PostingId, from: AccountId, to: AccountId, x: AssetId, v: Cent, e: Envelope, s': State, r: Receipt)
    requires CanPay(s, q, from, to, x, v) && OnlyPosting(s, from, x, q) && e == Payment(digest, s, q, to, x, v, Some(from))
    requires CommitsPinned(digest, s, e, 0, s', Ok(r))
    ensures LegCommitted(digest, s, Pay(from, to, x, v), s', r)
  {
    hide CommitsPinned, LiveSum, ResolvesTo, OnlyPosting;
    PaymentResolves(digest, s, q, from, to, x, v);
    assert WithSnapshots(digest, s, e) == Some(e);
    assert CommitsEnvelope(digest, s, e, 0, s', Ok(r));
    assert Build(Pay(from, to, x, v)).value == PayTransfer(from, to, x, v);
    assert CommitsTransfer(digest, s, PayTransfer(from, to, x, v), 0, s', Ok(r));
  }

  /** Reversing a whole payment commits the payment back. */
  lemma ReversePays(digest: Digest, s: State, t: EnvelopeId, e: Envelope, s': State, r: Receipt)
    requires t in s.transfers && Reversal(digest, s, t) == Some(e) && CommitsPinned(digest, s, e, 0, s', Ok(r))
    ensures ReversedTo(digest, s, t, s')
  {
    hide CommitsPinned, WithSnapshots, ReversalOf;
    assert Reverses(digest, s, t, 0, s', Ok(r));
  }

  lemma SamePin(digest: Digest, s: State, s': State, a: AccountId)
    requires s.accounts == s'.accounts && Head(s, a).Some?
    ensures Head(s', a) == Head(s, a) && Pin(digest, s', a) == Pin(digest, s, a)
  {
  }

  /** The first reversal the loop makes takes the second payment back. */
  lemma FirstReversal(digest: Digest, q: PostingId, a: AccountId, b: AccountId, x: AssetId, v: Cent, run: Run)
    requires Carried(digest, q, a, b, x, v, run)
    ensures ReversedTo(digest, run.s2, run.t2, run.s3)
  {
    hide CommitsPinned, LiveSum, EnvelopeIdOf, Inv, Grows, OnlyPosting, Reversal;
    SamePin(digest, run.s0, run.s2, a);
    SamePin(digest, run.s0, run.s2, b);
    var q1 := PostingId(run.t1, 0);
    RowKept(run.s1, run.s2, q1);
    ReversalIsPaymentBack(digest, run.s2, run.t2, q1, b, a, x, v, Some(b), Pin(digest, run.s0, a));
    ReversePays(digest, run.s2, run.t2, Payment(digest, run.s0, PostingId(run.t2, 0), b, x, v, None), run.s3, Receipt(run.t3));
  }

  lemma RowKept(s: State, s': State, q: PostingId)
    requires Inv(s) && Grows(s, s') && q in s.active
    ensures q in s'.immutable && s'.immutable[q] == s.active[q]
  {
  }

  /** The second finds its own envelope in the log, stored as the second payment. */
  lemma SecondReversal(digest: Digest, q: PostingId, a: AccountId, b: AccountId, x: AssetId, v: Cent, run: Run)
    requires Carried(digest, q, a, b, x, v, run)
    ensures ReversedTo(digest, run.s3, run.t1, run.s3)
  {
    hide LiveSum, EnvelopeIdOf, Inv, Grows, OnlyPosting, Reversal, LoadMayFail, Refused, Submitted;
    SamePin(digest, run.s0, run.s3, a);
    var q1 := PostingId(run.t1, 0);
    LateRow(run, q);
    LateTransfer(digest, q, a, b, x, v, run);
    ReversalIsPaymentBack(digest, run.s3, run.t1, q, a, b, x, v, Some(a), Pin(digest, run.s0, b));
    PayerNotHashed(digest, q1, a, x, v, Some(b), Pin(digest, run.s0, a));
    ReversePays(digest, run.s3, run.t1, Payment(digest, run.s0, q1, a, x, v, None), run.s3, run.s3.transfers[run.t2].receipt);
  }

  lemma LateRow(run: Run, q: PostingId)
    requires Inv(run.s0) && Inv(run.s1) && Inv(run.s2) && Inv(run.s3)
    requires Grows(run.s0, run.s1) && Grows(run.s1, run.s2) && Grows(run.s2, run.s3) && q in run.s0.active
    ensures q in run.s3.immutable && run.s3.immutable[q] == run.s0.active[q]
  {
    hide Inv, Grows;
    LaterGrows(run.s0, run.s1, run.s2);
    LaterGrows(run.s0, run.s2, run.s3);
    RowKept(run.s0, run.s3, q);
  }

  lemma LateTransfer(digest: Digest, q: PostingId, a: AccountId, b: AccountId, x: AssetId, v: Cent, run: Run)
    requires Carried(digest, q, a, b, x, v, run)
    ensures run.t1 in run.s3.transfers && run.s3.transfers[run.t1].envelope == Payment(digest, run.s0, q, b, x, v, Some(a))
    ensures run.t2 in run.s3.transfers
  {
    hide LiveSum, EnvelopeIdOf, Inv, Grows, OnlyPosting, CommitsPinned, CanPay;
    TransferKept(run.s1, run.s2, run.t1);
    TransferKept(run.s2, run.s3, run.t1);
    TransferKept(run.s2, run.s3, run.t2);
  }

  lemma PaysForward(digest: Digest, q: PostingId, a: AccountId, b: AccountId, c: AccountId, x: AssetId, v: Cent, run: Run)
    requires Carried(digest, q, a, b, x, v, run)
    ensures Forward(digest, [Pay(a, b, x, v), Pay(b, a, x, v), Pay(c, a, x, v)], [run.s0, run.s1, run.s2], [Receipt(run.t1), Receipt(run.t2)])
    ensures run.s2.accounts == run.s0.accounts
  {
    hide Inv, LiveSum, EnvelopeIdOf, CommitsPinned, LegCommitted, PaymentDone, CanPay, OnlyPosting;
    SamePin(digest, run.s0, run.s1, a);
    LegPays(digest, run.s0, q, a, b, x, v, Payment(digest, run.s0, q, b, x, v, Some(a)), run.s1, Receipt(run.t1));
    LegPays(digest, run.s1, PostingId(run.t1, 0), b, a, x, v, Payment(digest, run.s0, PostingId(run.t1, 0), a, x, v, Some(b)), run.s2, Receipt(run.t2));
  }

  lemma PaysBackward(digest: Digest, q: PostingId, a: AccountId, b: AccountId, x: AssetId, v: Cent, run: Run)
    requires Carried(digest, q, a, b, x, v, run)
    ensures Backward(digest, [run.s2, run.s3, run.s3], [Receipt(run.t1), Receipt(run.t2)])
  {
    hide Carried, ReversedTo;
    FirstReversal(digest, q, a, b, x, v, run);
    SecondReversal(digest, q, a, b, x, v, run);
  }

  lemma PaysBalances(digest: Digest, q: PostingId, a: AccountId, b: AccountId, x: AssetId, v: Cent, run: Run)
    requires Carried(digest, q, a, b, x, v, run)
    ensures LiveSum(run.s3, OfHolder(b, x)) == LiveSum(run.s0, OfHolder(b, x)) + v
    ensures LiveSum(run.s3, OfHolder(a, x)) == LiveSum(run.s0, OfHolder(a, x)) - v
  {
    hide Inv, Grows, LiveSum, EnvelopeIdOf, CommitsPinned, CanPay, OnlyPosting, Paid;
  }

  /** The run that is not compensated: after paying `v` over and back and then failing on an
      unknown account, `run_movements` returns the plain error of that failure, both
      reversals having answered with success, yet `b` is left `v` richer and `a` `v` poorer
      than before. */
  lemma RoundTripNotRestored(digest: Digest, s: State, q: PostingId, a: AccountId, b: AccountId, c: AccountId, x: AssetId, v: Cent)
      returns (tr: Trace, s': State)
    requires Setting(s, q, a, b, x, v) && FreshRun(digest, s, q, a, b, x, v) && c !in s.accounts
    ensures RunsLegs(digest, s, [Pay(a, b, x, v), Pay(b, a, x, v), Pay(c, a, x, v)], tr, s', Err(StoreFailed))
    ensures LiveSum(s', OfHolder(b, x)) == LiveSum(s, OfHolder(b, x)) + v
    ensures LiveSum(s', OfHolder(a, x)) == LiveSum(s, OfHolder(a, x)) - v
  {
    hide Inv, Grows, Setting, FreshRun, Carried, Forward, Backward, LiveSum, CommitsTransfer, EnvelopeIdOf, Payment;
    var run := Pays(digest, s, q, a, b, x, v);
    s' := run.s3;
    tr := Trace([s, run.s1, run.s2], [Receipt(run.t1), Receipt(run.t2)], [run.s2, run.s3, run.s3]);
    PaysForward(digest, q, a, b, c, x, v, run);
    PaysBackward(digest, q, a, b, x, v, run);
    PaysBalances(digest, q, a, b, x, v, run);
    MissingPayerFails(digest, run.s2, c, a, x, v, 0);
    assert FailsToCommit(digest, run.s2, PayTransfer(c, a, x, v), StoreFailed);
  }

  /** The other run that is not compensated: one payment, then a deposit of the minimum
      amount.  The deposit cannot be built, its error comes back as it is, and the payment
      stands. */
  lemma UnbuildableNotRestored(digest: Digest, s: State, q: PostingId, a: AccountId, b: AccountId, c: AccountId, x: AssetId, v: Cent)
      returns (tr: Trace, s': State)
    requires Setting(s, q, a, b, x, v) && EnvelopeIdOf(digest, Payment(digest, s, q, b, x, v, Some(a))) !in s.transfers
    ensures RunsLegs(digest, s, [Pay(a, b, x, v), Deposit(a, x, -TWO63, c)], tr, s', Err(AmountOverflow))
    ensures LiveSum(s', OfHolder(b, x)) == LiveSum(s, OfHolder(b, x)) + v
    ensures LiveSum(s', OfHolder(a, x)) == LiveSum(s, OfHolder(a, x)) - v
  {
    hide Inv, Grows, LiveSum, EnvelopeIdOf, LegCommitted, CanPay, OnlyPosting, Payment, RunsLegs;
    var receipt;
    s', receipt := OnePayment(digest, s, q, a, b, x, v);
    tr := Trace([s, s'], [receipt], [s']);
    StopsUnbuilt(digest, s, Pay(a, b, x, v), Deposit(a, x, -TWO63, c), s', receipt);
  }

  /** A payment leg by itself. */
  lemma OnePayment(digest: Digest, s: State, q: PostingId, a: AccountId, b: AccountId, x: AssetId, v: Cent) returns (s': State, receipt: Receipt)
    requires Inv(s) && CanPay(s, q, a, b, x, v) && OnlyPosting(s, a, x, q)
    requires EnvelopeIdOf(digest, Payment(digest, s, q, b, x, v, Some(a))) !in s.transfers
    ensures LegCommitted(digest, s, Pay(a, b, x, v), s', receipt)
    ensures LiveSum(s', OfHolder(b, x)) == LiveSum(s, OfHolder(b, x)) + v
    ensures LiveSum(s', OfHolder(a, x)) == LiveSum(s, OfHolder(a, x)) - v
  {
    hide Inv, Grows, LiveSum, EnvelopeIdOf, CommitsPinned, LegCommitted, OnlyPosting, Paid;
    var e := Payment(digest, s, q, b, x, v, Some(a));
    s' := PayStep(digest, s, q, a, b, x, v, Some(a), 0);
    receipt := Receipt(EnvelopeIdOf(digest, e));
    LegPays(digest, s, q, a, b, x, v, e, s', receipt);
  }

  lemma StopsUnbuilt(digest: Digest, s: State, first: Leg, second: Leg, s': State, receipt: Receipt)
    requires LegCommitted(digest, s, first, s', receipt) && Build(second).Err?
    ensures RunsLegs(digest, s, [first, second], Trace([s, s'], [receipt], [s']), s', Err(AmountOverflow))
  {
    hide LegCommitted, Unwinds;
    assert Forward(digest, [first, second], [s, s'], [receipt]);
  }

  // ----- such a setting exists -----

  function Plain(a: AccountId): Account { Account(a, 1, 0, DEFAULT_BOOK, []) }

  /** Three registered accounts and nothing else. */
  function Registered(a: AccountId, b: AccountId, c: AccountId): State {
    EMPTY.(accounts := map[a := [Plain(a)], b := [Plain(b)], c := [Plain(c)]])
  }

  lemma RegisteredInv(a: AccountId, b: AccountId, c: AccountId)
    requires a != b && b != c && a != c
    ensures Inv(Registered(a, b, c))
  {
    hide Inv, Grows;
    EmptyInv();
    var s1 := CreateAccount(EMPTY, Plain(a)).0;
    CreateAccountKeepsInv(EMPTY, Plain(a));
    var s2 := CreateAccount(s1, Plain(b)).0;
    CreateAccountKeepsInv(s1, Plain(b));
    var s3 := CreateAccount(s2, Plain(c)).0;
    CreateAccountKeepsInv(s2, Plain(c));
    assert s3 == Registered(a, b, c);
  }

  /** A deposit of `v` from `c` to `a`. */
  function DepositRequest(tid: EnvelopeId, a: AccountId, c: AccountId, x: AssetId, v: Cent): CommitRequest
    requires v > 0
  {
    var creates := [NewPosting(c, x, -(v as int), None), NewPosting(a, x, v, Some(c))];
    CommitRequest(tid, [], PlannedPostings(tid, creates), EnvelopeRecord(Envelope([], creates, [], DEFAULT_BOOK, []), Receipt(tid), 0), [a, c],
      LedgerEvent(0, TransferCommitted(tid)))
  }

  lemma DepositSums(creates: seq<NewPosting>, sl: Slice)
    requires |creates| == 2
    ensures SumNew(sl, creates) ==
      (if Covers(sl, creates[0].owner, creates[0].asset) then creates[0].value else 0)
      + (if Covers(sl, creates[1].owner, creates[1].asset) then creates[1].value else 0)
  {
    assert creates[..1][..0] == [];
    assert SumNew(sl, creates[..1]) == SumNew(sl, creates[..1][..0]) + (if Covers(sl, creates[0].owner, creates[0].asset) then creates[0].value else 0);
  }

  lemma DepositReady(tid: EnvelopeId, a: AccountId, b: AccountId, c: AccountId, x: AssetId, v: Cent)
    requires a != b && b != c && a != c && v > 0
    ensures Ready(Registered(a, b, c), DepositRequest(tid, a, c, x, v))
  {
    var s, req := Registered(a, b, c), DepositRequest(tid, a, c, x, v);
    var e := req.record.envelope;
    forall asset: AssetId ensures SumNew(OfAsset(asset), e.creates) == SumIds(OfAsset(asset), s.immutable, e.consumes) {
      DepositSums(e.creates, OfAsset(asset));
    }
    assert e.creates[0].owner == c && e.creates[1].owner == a;
    forall o ensures o in req.involved <==> Touches(s.immutable, e, o) {
    }
  }

  lemma DepositCommits(tid: EnvelopeId, a: AccountId, b: AccountId, c: AccountId, x: AssetId, v: Cent)
    requires a != b && b != c && a != c && v > 0
    ensures var s, req := Registered(a, b, c), DepositRequest(tid, a, c, x, v);
      Guard(s, req).None? && Commits(s, req, Applied(s, req), Ok(Committed(Receipt(tid))))
  {
    var s, req := Registered(a, b, c), DepositRequest(tid, a, c, x, v);
    AllOpen(s, req.involved);
    hide Applied, Append;
    assert DoubleSpendGuard(s, []).None?;
    assert FloorHolds(s, req);
  }

  lemma DepositInv(tid: EnvelopeId, a: AccountId, b: AccountId, c: AccountId, x: AssetId, v: Cent)
    requires a != b && b != c && a != c && v > 0
    ensures Inv(Applied(Registered(a, b, c), DepositRequest(tid, a, c, x, v)))
  {
    hide Inv, Grows, Ready, Commits, Guard, Applied, DepositRequest, Registered;
    var s0, req := Registered(a, b, c), DepositRequest(tid, a, c, x, v);
    RegisteredInv(a, b, c);
    DepositReady(tid, a, b, c, x, v);
    DepositCommits(tid, a, b, c, x, v);
    CommitKeepsInv(s0, req, Applied(s0, req), Ok(Committed(Receipt(tid))));
  }

  lemma DepositedSetting(s: State, tid: EnvelopeId, a: AccountId, b: AccountId, c: AccountId, x: AssetId, v: Cent)
    requires Inv(s) && a != b && b != c && a != c && v > 0
    requires s.active == map[PostingId(tid, 0) := Posting(PostingId(tid, 0), c, x, -(v as int)), PostingId(tid, 1) := Posting(PostingId(tid, 1), a, x, v)]
    requires s.accounts == Registered(a, b, c).accounts && s.books == map[]
    requires LiveSum(s, OfHolder(a, x)) == v && LiveSum(s, OfHolder(b, x)) == 0
    ensures Setting(s, PostingId(tid, 1), a, b, x, v)
  {
    hide Inv, LiveSum;
  }

  /** After it, `a` holds one posting worth `v` and `b` holds none: the setting of the run
      above exists. */
  lemma SettingExists(tid: EnvelopeId, a: AccountId, b: AccountId, c: AccountId, x: AssetId, v: Cent) returns (s: State, q: PostingId)
    requires a != b && b != c && a != c && v > 0
    ensures Setting(s, q, a, b, x, v) && s.accounts.Keys == {a, b, c} && s.transfers.Keys == {tid}
  {
    hide Inv, LiveSum, Applied, DepositRequest, Setting;
    s, q := Applied(Registered(a, b, c), DepositRequest(tid, a, c, x, v)), PostingId(tid, 1);
    DepositInv(tid, a, b, c, x, v);
    DepositRows(tid, a, b, c, x, v);
    DepositBalance(tid, a, b, c, x, v, a);
    DepositBalance(tid, a, b, c, x, v, b);
    DepositedSetting(s, tid, a, b, c, x, v);
  }

  lemma DepositRows(tid: EnvelopeId, a: AccountId, b: AccountId, c: AccountId, x: AssetId, v: Cent)
    requires a != b && b != c && a != c && v > 0
    ensures var s := Applied(Registered(a, b, c), DepositRequest(tid, a, c, x, v));
      && s.active == map[PostingId(tid, 0) := Posting(PostingId(tid, 0), c, x, -(v as int)), PostingId(tid, 1) := Posting(PostingId(tid, 1), a, x, v)]
      && s.accounts == Registered(a, b, c).accounts && s.books == map[] && s.transfers.Keys == {tid}
  {
    var s0, req := Registered(a, b, c), DepositRequest(tid, a, c, x, v);
    var p0, p1 := Posting(PostingId(tid, 0), c, x, -(v as int)), Posting(PostingId(tid, 1), a, x, v);
    hide Append, PutAbsent;
    assert req.create == [p0, p1];
    assert s0.active - IdSet([]) == map[];
    assert [p0, p1][..1] == [p0] && [p0][..0] == [];
    assert Put(map[], [p0]) == Put(map[], [p0][..0])[p0.id := p0];
    assert Put(map[], [p0, p1]) == Put(map[], [p0, p1][..1])[p1.id := p1];
  }

  lemma DepositBalance(tid: EnvelopeId, a: AccountId, b: AccountId, c: AccountId, x: AssetId, v: Cent, o: AccountId)
    requires a != b && b != c && a != c && v > 0 && o != c
    ensures LiveSum(Applied(Registered(a, b, c), DepositRequest(tid, a, c, x, v)), OfHolder(o, x)) == if o == a then v else 0
  {
    var s0, req := Registered(a, b, c), DepositRequest(tid, a, c, x, v);
    RegisteredInv(a, b, c);
    LogParts(s0);
    DepositReady(tid, a, b, c, x, v);
    AppliedLiveSum(s0, req, OfHolder(o, x));
    DepositSums(req.record.envelope.creates, OfHolder(o, x));
    hide Inv, Ready, TablesOk, SpentOk, ProvenanceOk, Applied;
    assert Weights(OfHolder(o, x), Live(s0)) == map[];
  }
}

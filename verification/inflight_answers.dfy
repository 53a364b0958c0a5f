/** What the inflight operations answer, and what they leave behind: the receipts of a call
    that succeeds, the reason of one that stops, and the transfers it filed
    (crates/kuatia/src/inflight.rs). */
module InflightAnswers {
  import opened Wrappers
  import opened Domain
  import opened Amounts
  import opened Store
  import opened Events
  import opened Runs
  import opened RunProofs
  import opened Resolution
  import opened LedgerOps
  import opened Intents
  import opened LedgerClient
  import opened Filings
  import opened Inflight
  import opened InflightOps
  import opened InflightParked
  import Balance

  datatype InflightError =
    | Failed(error: LedgerError)
    | CloseFailed(reason: LifecycleError)
    | InflightNotFound(id: EnvelopeId)
    | NotInflightTransaction(id: EnvelopeId)
    | SelfMovement(account: AccountId)
    | AlreadyOpen(hold: AccountId)
    | LegNotFound(destination: AccountId, asset: AssetId)
    | InsufficientHeld(available: Cent, requested: Cent)

  // ----- what is filed -----

  /** A settlement's transfer: it pays the target out of the hold, in the book of the
      authorization, and says which transaction and destination it settles. */
  ghost predicate SettlementFiled(codec: Codec, st: Settlement, s': State, t: EnvelopeId) {
    && t in s'.transfers
    && var e := s'.transfers[t].envelope;
      && e.book == st.book
      && e.metadata == codec.tag([], if st.role == Voiding then Void(st.inflight, st.destination) else Confirm(st.inflight, st.destination))
      && |e.creates| > 0 && e.creates[0].owner == st.target && e.creates[0].asset == st.asset && e.creates[0].value == st.amount
      && e.creates[0].payer == if st.hold == st.target then None else Some(st.hold)
  }

  lemma SettlementFiles(digest: Digest, codec: Codec, s: State, st: Settlement, r: Receipt, s': State)
    requires Inv(s) && Performs(digest, codec, s, Settling(st, Ok(r)), s') && r.transferId !in s.transfers
    ensures SettlementFiled(codec, st, s', r.transferId)
  {
    hide Inv, CommitsTransfer, Filings.FiledAs;
    var t := SettleTransfer(codec, st);
    var ts :| CommitsTransfer(digest, s, t, ts, s', Ok(r));
    IntentFiles(digest, s, t, ts, s', r);
    assert Pays(t.movements[0], s'.transfers[r.transferId].envelope.creates[0]);
  }

  /** The status reads a settlement back in the role it was made in. */
  lemma SettlementCounted(codec: Codec, st: Settlement, s': State, t: EnvelopeId)
    requires codec.Faithful() && SettlementFiled(codec, st, s', t)
    ensures RoleOf(codec, s'.transfers[t].envelope) == Some(st.role)
  {
  }

  /** A trade's authorization: in the trade's book, with the trade's metadata and the leg
      table beside it, each movement's amount put in the hold of its destination. */
  ghost predicate AuthorizationFiled(codec: Codec, sub: i64, trade: Transfer, s': State, t: EnvelopeId) {
    && t in s'.transfers
    && var e, ms := s'.transfers[t].envelope, trade.movements;
      && e.book == trade.book && |e.creates| >= |ms|
      && e.metadata == codec.tag(trade.metadata, Authorize(LegTable(sub, trade)))
      && forall i :: 0 <= i < |ms| ==> ParksLeg(sub, ms[i], e.creates[i])
  }

  /** The movement's amount in the hold of its destination, paid by its funder. */
  predicate ParksLeg(sub: i64, m: Movement, np: NewPosting) {
    && np.owner.id == m.to.id && np.owner.sub == sub && np.asset == m.asset && np.value == m.amount
    && np.payer == if m.from == np.owner then None else Some(m.from)
  }

  lemma AuthorizationFiles(digest: Digest, codec: Codec, s: State, sub: i64, trade: Transfer, r: Receipt, s': State)
    requires Inv(s) && Performs(digest, codec, s, Authorizing(sub, trade, Ok(r)), s') && r.transferId !in s.transfers
    ensures AuthorizationFiled(codec, sub, trade, s', r.transferId)
  {
    hide Inv, CommitsTransfer, Filings.FiledAs, Small, LegTable;
    var t := Rewritten(codec, sub, trade);
    var ts :| CommitsTransfer(digest, s, t, ts, s', Ok(r));
    IntentFiles(digest, s, t, ts, s', r);
    forall i | 0 <= i < |trade.movements| ensures ParksLeg(sub, trade.movements[i], s'.transfers[r.transferId].envelope.creates[i]) {
      assert Pays(t.movements[i], s'.transfers[r.transferId].envelope.creates[i]);
    }
  }

  // ----- what is left behind -----

  /** The hold still holds something or is closed. */
  ghost predicate Tidy(s: State, h: AccountId) { HoldsPostings(s, h) || ClosedIn(s, h) }

  /** Whatever was tidy besides `h` still is. */
  ghost predicate KeepsTidy(s: State, s': State, h: AccountId) {
    forall a :: a != h && Tidy(s, a) ==> Tidy(s', a)
  }

  lemma LiveRow(s: State, id: PostingId)
    requires TablesOk(s) && id in Live(s)
    ensures id in s.immutable && s.immutable[id] == Live(s)[id]
  {
  }

  lemma ClosedStays(s: State, s': State, a: AccountId)
    requires ClosedIn(s, a) && Grows(s, s')
    ensures ClosedIn(s', a)
  {
  }

  /** A settlement takes postings from its own hold only. */
  lemma SettleSpares(digest: Digest, codec: Codec, s: State, st: Settlement, r: Answer, s': State)
    requires Inv(s) && Performs(digest, codec, s, Settling(st, r), s')
    ensures KeepsTidy(s, s', st.hold)
  {
    hide Inv, Grows, Performs, Recorded, HoldsPostings, ClosedIn, PaysOut;
    PerformKeepsInv(digest, codec, s, Settling(st, r), s');
    var e := SettledBy(digest, codec, s, st, r, s');
    forall a | a != st.hold && Tidy(s, a) ensures Tidy(s', a) {
      if ClosedIn(s, a) { ClosedStays(s, s', a); }
      else if s' != s { RecordSpares(digest, codec, s, st, e, s', a); }
    }
  }

  /** The envelope a settlement committed, if it changed anything. */
  lemma SettledBy(digest: Digest, codec: Codec, s: State, st: Settlement, r: Answer, s': State) returns (e: Envelope)
    requires Inv(s) && Performs(digest, codec, s, Settling(st, r), s')
    ensures s' != s ==> Recorded(digest, s, e, s') && PaysOut(codec, s.immutable, st, e)
  {
    hide Inv, Grows, ResolvesTo, CommitsPinned, WithSnapshots, Recorded, PaysOut, ResolutionFails, OnlyDebited, CreditsFirst;
    var t := SettleTransfer(codec, st);
    var ts :| CommitsTransfer(digest, s, t, ts, s', r);
    e := Envelope([], [], [], 0, []);
    if s' != s {
      e :| ResolvesTo(digest, s, t, e) && CommitsEnvelope(digest, s, e, ts, s', r);
      LogParts(s);
      ResolvedParts(digest, s, t, e);
      SettledFacts(codec, s.immutable, st, e);
      ResolvedRealises(digest, s, t, e);
      FewMovements(t);
      CreatesCounted(digest, s, t, e);
      CommitDecides(digest, s, e, ts, s', r);
    }
  }

  lemma RecordSpares(digest: Digest, codec: Codec, s: State, st: Settlement, e: Envelope, s': State, a: AccountId)
    requires Inv(s) && Recorded(digest, s, e, s') && PaysOut(codec, s.immutable, st, e)
    requires a != st.hold && HoldsPostings(s, a)
    ensures HoldsPostings(s', a)
  {
    hide Inv, Ready, Applied, TablesOk, ProvenanceOk;
    var l, ts :| Ready(s, RequestOf(digest, e, l, ts)) && s' == Applied(s, RequestOf(digest, e, l, ts));
    var req := RequestOf(digest, e, l, ts);
    LogParts(s);
    OwnedParts(s);
    var id :| id in Live(s) && Live(s)[id].owner == a;
    LiveRow(s, id);
    assert id !in e.consumes;
    AppliedLive(s, req);
    AppliedLiveRow(s, req, id);
    SurvivorsFresh(s, req);
    hide Live, RequestOf;
    assert id in Live(s) - IdSet(req.consume);
    PutFresh(Live(s) - IdSet(req.consume), req.create);
  }

  // ----- receipts -----

  /** Every settlement so far was answered with a receipt. */
  predicate AllOk(ops: seq<Op>) { forall i :: 0 <= i < |ops| && ops[i].Settling? ==> ops[i].answer.Ok? }

  /** The receipts of the settlements, in order. */
  function ReceiptsOf(ops: seq<Op>): seq<Receipt> {
    if ops == [] then []
    else
      var op := ops[|ops| - 1];
      ReceiptsOf(ops[..|ops| - 1]) + if op.Settling? && op.answer.Ok? then [op.answer.value] else []
  }

  lemma ReceiptsPush(ops: seq<Op>, op: Op)
    ensures ReceiptsOf(ops + [op]) == ReceiptsOf(ops) + if op.Settling? && op.answer.Ok? then [op.answer.value] else []
    ensures AllOk(ops) && (op.Settling? ==> op.answer.Ok?) ==> AllOk(ops + [op])
  {
    assert (ops + [op])[..|ops|] == ops;
  }

  // ----- why a call stops -----

  predicate ReadsLegs(codec: Codec, md: Metadata) {
    match codec.read(md)
    case Some(Authorize(_)) => true
    case _ => false
  }

  /** The handle decides, before anything else is looked at, and exactly: it must be in the
      log, and its metadata must read as a leg table. */
  ghost predicate HandleDecides(codec: Codec, s: State, inflight: EnvelopeId, r: Result<seq<Receipt>, InflightError>, ops: seq<Op>) {
    && (inflight !in s.transfers <==> r == Err(InflightNotFound(inflight)))
    && (inflight in s.transfers && !ReadsLegs(codec, s.transfers[inflight].envelope.metadata) <==> r == Err(NotInflightTransaction(inflight)))
    && (r.Err? && (r.error.InflightNotFound? || r.error.NotInflightTransaction?) ==> ops == [] && r.error.id == inflight)
  }

  /** The last settlement was refused, the ones before it were not. */
  ghost predicate BrokeOff(ops: seq<Op>, e: LedgerError) {
    var n := |ops| - 1;
    n >= 0 && ops[n].Settling? && ops[n].answer == Err(e) && AllOk(ops[..n])
  }

  /** A hold that holds nothing could not be closed: it is missing, or has no next version. */
  ghost predicate CannotClose(s: State, h: AccountId, error: InflightError) {
    && !HoldsPostings(s, h)
    && match Head(s, h)
       case None => error == Failed(StoreFailed)
       case Some(account) => error == CloseFailed(VersionOverflow) && !account.IsClosed() && account.version + 1 == TWO64
  }

  ghost predicate ClosingStops(s: State, legs: seq<Leg>, error: InflightError) {
    exists i :: 0 <= i < |legs| && CannotClose(s, legs[i].hold, error)
  }

  ghost predicate SumStops(s: State, legs: seq<Leg>) {
    exists i :: 0 <= i < |legs| && Balance.Unsummable(s, legs[i].hold, legs[i].asset)
  }

  /** Why a sweep stops: a refused settlement, a balance that does not add up, or a hold that
      cannot be closed. */
  ghost predicate SweepStops(legs: seq<Leg>, q: Path, error: InflightError)
    requires |q.states| == |q.ops| + 1
  {
    var s := q.states[|q.ops|];
    || (error.Failed? && BrokeOff(q.ops, error.error))
    || (error == Failed(AmountOverflow) && AllOk(q.ops) && SumStops(s, legs))
    || (AllOk(q.ops) && ClosingStops(s, legs, error))
  }

  /** Why `confirm` stops, with `k` requests settled: request `k` names no leg, or asks for
      more than is left in the hold of the first leg it names, or that cannot be added up; or
      its settlement is refused; or, with all settled, a hold cannot be closed. */
  ghost predicate ConfirmStops(legs: seq<Leg>, confirms: seq<Movement>, q: Path, error: InflightError)
    requires |q.states| == |q.ops| + 1
  {
    var k, s := |q.ops|, q.states[|q.ops|];
    || (k < |confirms| && AllOk(q.ops) && RequestStops(s, legs, confirms[k], error))
    || (error.Failed? && BrokeOff(q.ops, error.error))
    || (k >= |confirms| && AllOk(q.ops) && ClosingStops(s, legs, error))
  }

  ghost predicate RequestStops(s: State, legs: seq<Leg>, m: Movement, error: InflightError) {
    match error
    case LegNotFound(destination, asset) =>
      && destination == m.to && asset == m.asset
      && forall i :: 0 <= i < |legs| ==> !(legs[i].funder == m.from && legs[i].destination == m.to && legs[i].asset == m.asset)
    case InsufficientHeld(available, requested) =>
      && requested == m.amount && m.amount > available
      && exists i: nat :: FirstMatch(legs, m, i) && available == HeldIn(s, Key(legs[i].hold, m.asset))
    case Failed(e) => e == AmountOverflow && exists i: nat :: FirstMatch(legs, m, i) && Balance.Unsummable(s, legs[i].hold, m.asset)
    case _ => false
  }

  // ----- how much each settlement takes -----

  /** Nothing is confirmed beyond what its hold has at that moment. */
  ghost predicate WithinHeld(q: Path) {
    forall i :: 0 <= i < |q.ops| && i < |q.states| && q.ops[i].Settling? ==>
      q.ops[i].st.amount <= HeldIn(q.states[i], Key(q.ops[i].st.hold, q.ops[i].st.asset))
  }

  /** Each settlement takes the whole balance its hold has at that moment. */
  ghost predicate WholeBalances(q: Path) {
    forall i :: 0 <= i < |q.ops| && i < |q.states| && q.ops[i].Settling? ==>
      0 < q.ops[i].st.amount == HeldIn(q.states[i], Key(q.ops[i].st.hold, q.ops[i].st.asset))
  }

  /** From step `b` on the path pays out the first `n` of `ps`, each in full, from one hold. */
  ghost predicate PaysFrom(ops: seq<Op>, b: nat, n: nat, h: AccountId, x: AssetId, ps: seq<Payout>) {
    && b + n <= |ops| && n <= |ps|
    && forall i {:trigger ops[i]} :: b <= i < b + n ==>
         && ops[i].Settling? && ops[i].st.hold == h && ops[i].st.asset == x
         && ops[i].st.target == ps[i - b].funder && ops[i].st.amount == ps[i - b].give
  }

  /** Step `i` pays one share of the balance its hold had at step `b`. */
  ghost predicate PaysShare(legs: seq<Leg>, q: Path, i: nat, b: nat, n: nat, ps: seq<Payout>, at: seq<nat>) {
    && b <= i < b + n && i < |q.ops| && i < |q.states| && q.ops[i].Settling?
    && var h, x := q.ops[i].st.hold, q.ops[i].st.asset;
      && PaysFrom(q.ops, b, n, h, x, ps)
      && exists balance: Cent :: balance == HeldIn(q.states[b], Key(h, x)) && Distributes(LegsOf(legs, h, x), balance, ps, at)
  }

  ghost predicate Shared(legs: seq<Leg>, q: Path, i: nat) { exists b, n, ps, at :: PaysShare(legs, q, i, b, n, ps, at) }

  /** Each settlement is one share of a hold's balance, the shares in leg order. */
  ghost predicate AllShared(legs: seq<Leg>, q: Path) {
    forall i :: 0 <= i < |q.ops| && q.ops[i].Settling? ==> Shared(legs, q, i)
  }

  /** The settlements are in the authorization's book, and take what they should. */
  ghost predicate Paying(book: BookId, legs: seq<Leg>, role: Role, q: Path) {
    && |q.states| == |q.ops| + 1
    && (forall i :: 0 <= i < |q.ops| && q.ops[i].Settling? ==> q.ops[i].st.book == book)
    && if role == Confirming then WholeBalances(q) else AllShared(legs, q)
  }

  ghost predicate Going(book: BookId, legs: seq<Leg>, role: Role, q: Path) { Paying(book, legs, role, q) && AllOk(q.ops) }

  /** What a sweep, or a part of it that started with the receipts `before`, answers. */
  ghost predicate Sweeps(book: BookId, legs: seq<Leg>, role: Role, q: Path, before: seq<Receipt>, r: Result<seq<Receipt>, InflightError>) {
    && Paying(book, legs, role, q)
    && match r
       case Ok(receipts) => AllOk(q.ops) && ReceiptsOf(q.ops) == before + receipts
       case Err(error) => SweepStops(legs, q, error)
  }

  function AsReceipts(r: Result<Option<Receipt>, InflightError>): Result<seq<Receipt>, InflightError> {
    match r
    case Err(error) => Err(error)
    case Ok(None) => Ok([])
    case Ok(Some(receipt)) => Ok([receipt])
  }

  ghost predicate AllTidy(s: State, legs: seq<Leg>) { forall i :: 0 <= i < |legs| ==> Tidy(s, legs[i].hold) }

  /** What `confirm_all` and `void` answer: the receipts of their settlements in order, with
      every hold closed that holds nothing any more, or why they stopped. */
  ghost predicate SweepAnswers(codec: Codec, start: State, inflight: EnvelopeId, role: Role, q: Path, s: State, r: Result<seq<Receipt>, InflightError>) {
    var legs := LegsIn(codec, start, inflight);
    && HandleDecides(codec, start, inflight, r, q.ops)
    && (inflight in start.transfers && ReadsLegs(codec, start.transfers[inflight].envelope.metadata) ==>
          Sweeps(start.transfers[inflight].envelope.book, legs, role, q, [], r) && (r.Ok? ==> AllTidy(s, legs)))
  }

  /** What `confirm` answers. */
  ghost predicate ConfirmAnswers(
      codec: Codec, start: State, inflight: EnvelopeId, confirms: seq<Movement>, q: Path, s: State, r: Result<seq<Receipt>, InflightError>)
  {
    var legs := LegsIn(codec, start, inflight);
    && HandleDecides(codec, start, inflight, r, q.ops) && WithinHeld(q) && |q.states| == |q.ops| + 1
    && (r.Err? && inflight in start.transfers && ReadsLegs(codec, start.transfers[inflight].envelope.metadata) ==>
          ConfirmStops(legs, confirms, q, r.error))
    && (r.Ok? ==> forall i :: 0 <= i < |confirms| && i < |q.ops| && q.ops[i].Settling? ==> Tidy(s, q.ops[i].st.hold))
  }

  // ----- one step more -----

  ghost function Extend(p: Path, op: Op, s: State): Path { Path(p.states + [s], p.ops + [op]) }

  /** At most one bookkeeping step further. */
  ghost predicate Kept(p: Path, q: Path, s: State) {
    q == p || (|q.ops| == |p.ops| + 1 && q.ops[|p.ops|].Keeping? && q == Extend(p, q.ops[|p.ops|], s))
  }

  lemma KeptGoing(book: BookId, legs: seq<Leg>, role: Role, p: Path, q: Path, s: State)
    requires Going(book, legs, role, p) && Kept(p, q, s)
    ensures Going(book, legs, role, q) && ReceiptsOf(q.ops) == ReceiptsOf(p.ops)
  {
    if q != p {
      ReceiptsPush(p.ops, q.ops[|p.ops|]);
      KeptPaying(book, legs, role, p, q.ops[|p.ops|], s);
    }
  }

  lemma KeptPaying(book: BookId, legs: seq<Leg>, role: Role, p: Path, op: Op, s: State)
    requires Paying(book, legs, role, p) && op.Keeping?
    ensures Paying(book, legs, role, Extend(p, op, s))
  {
    hide HeldIn, Distributes, Shared;
    var q := Extend(p, op, s);
    assert forall i :: 0 <= i < |p.ops| ==> q.ops[i] == p.ops[i] && q.states[i] == p.states[i];
    if role == Voiding {
      SharedStays(legs, p, op, s);
      assert AllShared(legs, q);
    }
  }

  lemma SharedStays(legs: seq<Leg>, p: Path, op: Op, s: State)
    requires |p.states| == |p.ops| + 1
    ensures forall i :: 0 <= i < |p.ops| && Shared(legs, p, i) ==> Shared(legs, Extend(p, op, s), i)
  {
    hide PaysShare;
    forall i | 0 <= i < |p.ops| && Shared(legs, p, i) ensures Shared(legs, Extend(p, op, s), i) {
      var b, n, ps, at :| PaysShare(legs, p, i, b, n, ps, at);
      ShareStays(legs, p, op, s, i, b, n, ps, at);
      NowShared(legs, Extend(p, op, s), i, b, n, ps, at);
    }
  }

  lemma PaysFromStays(ops: seq<Op>, op: Op, b: nat, n: nat, h: AccountId, x: AssetId, ps: seq<Payout>)
    requires PaysFrom(ops, b, n, h, x, ps)
    ensures PaysFrom(ops + [op], b, n, h, x, ps)
  {
  }

  lemma ShareStays(legs: seq<Leg>, p: Path, op: Op, s: State, i: nat, b: nat, n: nat, ps: seq<Payout>, at: seq<nat>)
    requires |p.states| == |p.ops| + 1 && PaysShare(legs, p, i, b, n, ps, at)
    ensures PaysShare(legs, Extend(p, op, s), i, b, n, ps, at)
  {
    hide HeldIn, Distributes, LegsOf;
    var q := Extend(p, op, s);
    assert q.states[b] == p.states[b] && q.ops[i] == p.ops[i];
    assert forall j :: 0 <= j < |p.ops| ==> q.ops[j] == p.ops[j];
    var h, x := q.ops[i].st.hold, q.ops[i].st.asset;
    PaysFromStays(p.ops, op, b, n, h, x, ps);
    hide PaysFrom;
    var balance: Cent :| balance == HeldIn(p.states[b], Key(h, x)) && Distributes(LegsOf(legs, h, x), balance, ps, at);
  }

  lemma ConfirmedPush(book: BookId, legs: seq<Leg>, p: Path, st: Settlement, answer: Answer, s: State)
    requires Paying(book, legs, Confirming, p) && st.book == book
    requires 0 < st.amount == HeldIn(p.states[|p.ops|], Key(st.hold, st.asset))
    ensures Paying(book, legs, Confirming, Extend(p, Settling(st, answer), s))
  {
    hide HeldIn;
  }

  lemma VoidedPush(book: BookId, legs: seq<Leg>, p: Path, st: Settlement, answer: Answer, s: State, b: nat, balance: Cent, ps: seq<Payout>, at: seq<nat>)
    requires Paying(book, legs, Voiding, p) && st.book == book && b <= |p.ops| < b + |ps|
    requires PaysFrom(p.ops, b, |p.ops| - b, st.hold, st.asset, ps)
    requires balance == HeldIn(p.states[b], Key(st.hold, st.asset)) && Distributes(LegsOf(legs, st.hold, st.asset), balance, ps, at)
    requires st.target == ps[|p.ops| - b].funder && st.amount == ps[|p.ops| - b].give
    ensures var q := Extend(p, Settling(st, answer), s);
      Paying(book, legs, Voiding, q) && PaysFrom(q.ops, b, |q.ops| - b, st.hold, st.asset, ps)
  {
    hide HeldIn, Distributes, LegsOf;
    var op, q := Settling(st, answer), Extend(p, Settling(st, answer), s);
    SharedStays(legs, p, op, s);
    hide Shared;
    assert forall j :: 0 <= j < |p.ops| ==> q.ops[j] == p.ops[j];
    assert q.ops[|p.ops|] == op && q.states[b] == p.states[b];
    assert PaysFrom(q.ops, b, |q.ops| - b, st.hold, st.asset, ps);
    hide PaysFrom;
    assert PaysShare(legs, q, |p.ops|, b, |q.ops| - b, ps, at);
    assert Shared(legs, q, |p.ops|) by { NowShared(legs, q, |p.ops|, b, |q.ops| - b, ps, at); }
  }

  lemma NowShared(legs: seq<Leg>, q: Path, i: nat, b: nat, n: nat, ps: seq<Payout>, at: seq<nat>)
    requires PaysShare(legs, q, i, b, n, ps, at)
    ensures Shared(legs, q, i)
  {
  }

  /** A refused settlement ends the call. */
  lemma BrokenOff(p: Path, st: Settlement, error: LedgerError, s: State)
    requires AllOk(p.ops)
    ensures BrokeOff(Extend(p, Settling(st, Err(error)), s).ops, error)
  {
    assert (p.ops + [Settling(st, Err(error))])[..|p.ops|] == p.ops;
  }

  lemma WithinPush(p: Path, st: Settlement, answer: Answer, s: State)
    requires |p.states| == |p.ops| + 1 && WithinHeld(p) && st.amount <= HeldIn(p.states[|p.ops|], Key(st.hold, st.asset))
    ensures WithinHeld(Extend(p, Settling(st, answer), s))
  {
    hide HeldIn;
  }

  lemma KeptWithin(p: Path, q: Path, s: State)
    requires |p.states| == |p.ops| + 1 && WithinHeld(p) && AllOk(p.ops) && Kept(p, q, s)
    ensures WithinHeld(q) && AllOk(q.ops) && p.ops <= q.ops && |q.states| == |q.ops| + 1
  {
    hide HeldIn;
  }

  lemma TidyAfter(s: State, m: State, s': State, h: AccountId)
    requires KeepsTidy(s, m, h) && KeepsTidy(m, s', h)
    ensures KeepsTidy(s, s', h)
  {
    hide Tidy;
  }

  // ----- authorize -----

  /** A hold as `authorize` registers it: its first version, flagged in flight and against
      overdraft and nothing else, in the trade's book, naming its destination. */
  ghost predicate NewlyOpened(codec: Codec, sub: i64, book: BookId, destination: AccountId, a: Account) {
    && a.id == AccountId(destination.id, sub) && a.version == 1 && a.book == book
    && a.flags == 0x4 + 0x8
    && a.metadata == codec.tag([], Hold(destination))
  }

  ghost predicate PayeeOf(ms: seq<Movement>, a: AccountId) { exists i :: 0 <= i < |ms| && ms[i].to == a }

  /** The registration of a payee's hold, or its event. */
  ghost predicate Opens(codec: Codec, sub: i64, trade: Transfer, op: Op) {
    && op.Keeping?
    && match op.step
       case DoCreateAccount(a) => exists d :: PayeeOf(trade.movements, d) && NewlyOpened(codec, sub, trade.book, d, a)
       case DoAppendCreated(a, _) => exists d :: PayeeOf(trade.movements, d) && a == HoldOf(sub, d)
       case _ => false
  }

  ghost predicate AllOpening(codec: Codec, sub: i64, trade: Transfer, ops: seq<Op>) {
    forall i :: 0 <= i < |ops| ==> Opens(codec, sub, trade, ops[i])
  }

  ghost predicate PaysItself(ms: seq<Movement>) { exists i :: 0 <= i < |ms| && ms[i].from == ms[i].to }

  /** A hold of the trade is registered already, or two of its payees would share one. */
  ghost predicate HoldTaken(start: State, sub: i64, ms: seq<Movement>) {
    || (exists d :: PayeeOf(ms, d) && AccountId(d.id, sub) in start.accounts)
    || (exists d, e :: PayeeOf(ms, d) && PayeeOf(ms, e) && d != e && d.id == e.id)
  }

  /** What `authorize` answers: it refuses a trade that pays its payer before anything else,
      then one whose holds are taken, each exactly; it stops when the rewritten trade is
      refused; and it answers with the legs of holds it has opened. */
  ghost predicate AuthorizeAnswers(
      codec: Codec, start: State, trade: Transfer, sub: i64, q: Path, s: State, r: Result<(Receipt, seq<Leg>), InflightError>)
  {
    var ms := trade.movements;
    && (PaysItself(ms) <==> r.Err? && r.error.SelfMovement?)
    && (!PaysItself(ms) && HoldTaken(start, sub, ms) <==> r.Err? && r.error.AlreadyOpen?)
    && match r
       case Ok(done) => forall i :: 0 <= i < |done.1| ==> HoldOpened(codec, sub, trade.book, s, done.1[i])
       case Err(SelfMovement(a)) => q.ops == [] && FirstSelf(ms, a)
       case Err(AlreadyOpen(h)) => AllOpening(codec, sub, trade, q.ops) && h in s.accounts && exists d :: PayeeOf(ms, d) && h == HoldOf(sub, d)
       case Err(Failed(e)) =>
         var n := |q.ops| - 1;
         n >= 0 && q.ops[n] == Authorizing(sub, trade, Err(e)) && AllOpening(codec, sub, trade, q.ops[..n])
       case _ => false
  }

  ghost predicate HoldOpened(codec: Codec, sub: i64, book: BookId, s: State, l: Leg) {
    Head(s, l.hold).Some? && NewlyOpened(codec, sub, book, l.destination, Head(s, l.hold).value)
  }

  ghost predicate FirstSelf(ms: seq<Movement>, a: AccountId) {
    exists i :: 0 <= i < |ms| && ms[i].from == ms[i].to == a && forall j :: 0 <= j < i ==> ms[j].from != ms[j].to
  }

  /** The first `n` holds are open, and no other account is new. */
  ghost predicate OpenUpTo(codec: Codec, sub: i64, book: BookId, ds: seq<AccountId>, n: nat, start: State, s: State)
    requires n <= |ds|
  {
    && (forall a :: a in s.accounts <==> a in start.accounts || HoldAmong(sub, ds[..n], a))
    && (forall i :: 0 <= i < n ==> HoldOf(sub, ds[i]) !in start.accounts)
    && (forall i :: 0 <= i < n ==> Head(s, HoldOf(sub, ds[i])).Some? && NewlyOpened(codec, sub, book, ds[i], Head(s, HoldOf(sub, ds[i])).value))
    && (forall i, j :: 0 <= i < j < n ==> ds[i].id != ds[j].id)
  }

  ghost predicate HoldAmong(sub: i64, ds: seq<AccountId>, a: AccountId) { exists i :: 0 <= i < |ds| && HoldOf(sub, ds[i]) == a }

  ghost predicate OnlyAdds(s: State, account: Account, s': State) {
    account.id !in s.accounts && s'.accounts == s.accounts[account.id := [account]]
  }

  lemma OneMoreOpen(codec: Codec, sub: i64, book: BookId, ds: seq<AccountId>, n: nat, start: State, s: State, account: Account, s': State)
    requires n < |ds| && OpenUpTo(codec, sub, book, ds, n, start, s)
    requires NewlyOpened(codec, sub, book, ds[n], account) && OnlyAdds(s, account, s')
    ensures OpenUpTo(codec, sub, book, ds, n + 1, start, s')
  {
    forall i | 0 <= i < n ensures ds[i].id != ds[n].id {
      assert HoldOf(sub, ds[..n][i]) in s.accounts;
    }
    forall a ensures HoldAmong(sub, ds[..n + 1], a) <==> HoldAmong(sub, ds[..n], a) || a == HoldOf(sub, ds[n]) {
      if HoldAmong(sub, ds[..n], a) {
        var i :| 0 <= i < n && HoldOf(sub, ds[..n][i]) == a;
        assert ds[..n + 1][i] == ds[i];
      }
      assert ds[..n + 1][n] == ds[n];
    }
    hide HoldAmong;
  }

  lemma OpenBlocked(codec: Codec, sub: i64, book: BookId, ds: seq<AccountId>, n: nat, start: State, s: State, ms: seq<Movement>)
    requires n < |ds| && OpenUpTo(codec, sub, book, ds, n, start, s) && HoldOf(sub, ds[n]) in s.accounts
    requires Distinct(ds) && forall i :: 0 <= i < |ds| ==> PayeeOf(ms, ds[i])
    ensures HoldTaken(start, sub, ms)
  {
    hide PayeeOf;
    if HoldOf(sub, ds[n]) !in start.accounts {
      var i :| 0 <= i < n && HoldOf(sub, ds[..n][i]) == HoldOf(sub, ds[n]);
      assert ds[i].id == ds[n].id;
    }
  }

  lemma AllOpened(codec: Codec, sub: i64, book: BookId, ds: seq<AccountId>, start: State, s: State, ms: seq<Movement>)
    requires OpenUpTo(codec, sub, book, ds, |ds|, start, s) && forall d :: PayeeOf(ms, d) ==> d in ds
    ensures !HoldTaken(start, sub, ms)
    ensures forall i :: 0 <= i < |ms| ==> HoldOf(sub, ms[i].to) !in start.accounts
    ensures forall i :: 0 <= i < |ms| ==>
      Head(s, HoldOf(sub, ms[i].to)).Some? && NewlyOpened(codec, sub, book, ms[i].to, Head(s, HoldOf(sub, ms[i].to)).value)
  {
    forall i | 0 <= i < |ms| ensures ms[i].to in ds { assert PayeeOf(ms, ms[i].to); }
    hide PayeeOf;
  }

  /** Committing registers nobody. */
  lemma CommitKeepsAccounts(digest: Digest, codec: Codec, s: State, sub: i64, trade: Transfer, r: Answer, s': State)
    requires Inv(s) && Performs(digest, codec, s, Authorizing(sub, trade, r), s')
    ensures s'.accounts == s.accounts
  {
    hide Inv, Grows, ResolvesTo, CommitsPinned, WithSnapshots, Recorded, ResolutionFails, Small;
    var t := Rewritten(codec, sub, trade);
    var ts :| CommitsTransfer(digest, s, t, ts, s', r);
    if s' != s {
      var e :| ResolvesTo(digest, s, t, e) && CommitsEnvelope(digest, s, e, ts, s', r);
      LogParts(s);
      RewrittenSmall(codec, sub, trade);
      SmallIndexable(digest, s, t);
      ResolvedRealises(digest, s, t, e);
      CommitDecides(digest, s, e, ts, s', r);
      if Recorded(digest, s, e, s') { RecordedEffect(digest, s, e, s'); }
    }
  }
}

/** An inflight transaction from its authorization on: the holds it opens were unregistered,
    and whatever confirms, voids and other trades follow, each hold keeps what was authorized
    less what was confirmed and voided (crates/kuatia/src/inflight.rs). */
module InflightParked {
  import opened Wrappers
  import opened Domain
  import opened Totals
  import opened Amounts
  import opened Store
  import opened Canonical
  import opened Runs
  import opened RunProofs
  import opened Resolution
  import opened LedgerOps
  import opened Intents
  import opened Inflight
  import opened InflightTheorems
  import opened InflightOps
  import Balance

  /** What a successful `authorize` leaves: holds that were new and forbid overdraft, and the
      rewritten trade committed after nothing but bookkeeping. */
  ghost predicate Parks(trade: Transfer, sub: i64, q: Path, receipt: Receipt, legs: seq<Leg>) {
    && |q.ops| > 0 && |q.states| == |q.ops| + 1
    && legs == LegTable(sub, trade)
    && q.ops[|q.ops| - 1] == Authorizing(sub, trade, Ok(receipt))
    && (forall j :: 0 <= j < |q.ops| - 1 ==> q.ops[j].Keeping?)
    && (forall i :: 0 <= i < |trade.movements| ==> trade.movements[i].from != trade.movements[i].to)
    && (forall i :: 0 <= i < |legs| ==> legs[i].hold !in q.states[0].accounts && Forbids(q.states[|q.ops|], legs[i].hold))
  }

  /** The leg table filed under a handle. */
  ghost function LegsIn(codec: Codec, s: State, inflight: EnvelopeId): seq<Leg> {
    if inflight !in s.transfers then []
    else
      match codec.read(s.transfers[inflight].envelope.metadata)
      case Some(Authorize(legs)) => legs
      case _ => []
  }

  ghost function BookIn(s: State, inflight: EnvelopeId): BookId {
    if inflight in s.transfers then s.transfers[inflight].envelope.book else 0
  }

  // ----- what a partial confirm settles -----

  predicate Matches(l: Leg, m: Movement) { l.funder == m.from && l.destination == m.to && l.asset == m.asset }

  /** Leg `i` has the movement's funder, destination and asset, and none before it has. */
  predicate FirstMatch(legs: seq<Leg>, m: Movement, i: nat) {
    && i < |legs| && legs[i].funder == m.from && legs[i].destination == m.to && legs[i].asset == m.asset
    && forall j :: 0 <= j < i ==> !Matches(legs[j], m)
  }

  /** The request `m` was put to the store: its whole amount, out of the hold of the first
      leg it names, to its destination. */
  ghost predicate SettledAs(book: BookId, inflight: EnvelopeId, legs: seq<Leg>, m: Movement, op: Op) {
    && op.Settling?
    && exists i: nat :: FirstMatch(legs, m, i) && op.st == Settlement(book, inflight, legs[i].hold, m.to, m.to, m.asset, m.amount, Confirming)
  }

  /** The requests were settled in order, and nothing else was. */
  ghost predicate Requested(book: BookId, inflight: EnvelopeId, legs: seq<Leg>, confirms: seq<Movement>, ops: seq<Op>) {
    forall n :: 0 <= n < |ops| && ops[n].Settling? ==> n < |confirms| && SettledAs(book, inflight, legs, confirms[n], ops[n])
  }

  /** Every request was settled, with these receipts. */
  ghost predicate AllSettled(confirms: seq<Movement>, ops: seq<Op>, receipts: seq<Receipt>) {
    && |receipts| == |confirms| <= |ops|
    && forall n :: 0 <= n < |confirms| ==> ops[n].Settling? && ops[n].answer == Ok(receipts[n])
  }

  lemma RequestedPush(book: BookId, inflight: EnvelopeId, legs: seq<Leg>, confirms: seq<Movement>, ops: seq<Op>, n: nat, op: Op)
    requires Requested(book, inflight, legs, confirms, ops) && n == |ops| < |confirms| && SettledAs(book, inflight, legs, confirms[n], op)
    ensures Requested(book, inflight, legs, confirms, ops + [op])
  {
    hide SettledAs;
  }

  /** Closings afterwards change neither. */
  lemma RequestedClosed(book: BookId, inflight: EnvelopeId, legs: seq<Leg>, confirms: seq<Movement>, before: seq<Op>, ops: seq<Op>, receipts: seq<Receipt>)
    requires Requested(book, inflight, legs, confirms, before) && AllSettled(confirms, before, receipts)
    requires before <= ops && forall i :: |before| <= i < |ops| ==> ops[i].Keeping?
    ensures Requested(book, inflight, legs, confirms, ops) && AllSettled(confirms, ops, receipts)
  {
    hide SettledAs;
  }

  predicate AllKeeping(ops: seq<Op>) { forall j :: 0 <= j < |ops| ==> ops[j].Keeping? }

  // ----- up to the authorization -----

  /** Nothing in the log touches an account that is not registered. */
  lemma UnregisteredUntouched(s: State, a: AccountId, t: EnvelopeId)
    requires Inv(s) && a !in s.accounts && t in s.transfers
    ensures !Touches(s.immutable, s.transfers[t].envelope, a)
  {
    assert ProvenanceOk(s) && OwnershipOk(s);
    var e := s.transfers[t].envelope;
    forall i | 0 <= i < |e.creates| ensures e.creates[i].owner != a {
      assert CreatedBy(s, t, i);
    }
  }

  lemma UnregisteredHoldOk(k: Parked, s: State)
    requires Inv(s) && k.h !in s.accounts && k.inflight !in s.transfers
    ensures HoldOk(k, s)
  {
    hide Inv, Touches;
    forall t | t in s.transfers ensures Shaped(k, s.immutable, t, s.transfers[t].envelope) {
      UnregisteredUntouched(s, k.h, t);
    }
  }

  /** Bookkeeping files no transfer. */
  lemma KeepingFilesNothing(digest: Digest, codec: Codec, s: State, op: Op, s': State)
    requires Inv(s) && op.Keeping? && Performs(digest, codec, s, op, s')
    ensures s'.transfers == s.transfers
  {
    hide Inv, Grows, StepTo;
    SingleHistory(s);
    Balance.StepShapeFrom(digest, [s], op.step, s');
  }

  lemma {:induction false} PathInv(digest: Digest, codec: Codec, p: Path, i: nat)
    requires IsPath(digest, codec, p) && i < |p.states| && Inv(p.states[0])
    ensures Inv(p.states[i]) && Grows(p.states[0], p.states[i])
  {
    hide Inv, Grows, Performs;
    if i == 0 {
      SameState(p.states[0]);
    } else {
      PathInv(digest, codec, p, i - 1);
      PerformKeepsInv(digest, codec, p.states[i - 1], p.ops[i - 1], p.states[i]);
      LaterGrows(p.states[0], p.states[i - 1], p.states[i]);
    }
  }

  lemma {:induction false} BookkeepingFilesNothing(digest: Digest, codec: Codec, p: Path, i: nat)
    requires IsPath(digest, codec, p) && i < |p.states| && Inv(p.states[0]) && forall j :: 0 <= j < i ==> p.ops[j].Keeping?
    ensures p.states[i].transfers == p.states[0].transfers
  {
    hide Inv, Performs;
    if i > 0 {
      BookkeepingFilesNothing(digest, codec, p, i - 1);
      PathInv(digest, codec, p, i - 1);
      KeepingFilesNothing(digest, codec, p.states[i - 1], p.ops[i - 1], p.states[i]);
    }
  }

  /** A filed transfer is in the log with its own metadata. */
  lemma FiledAs(digest: Digest, s: State, t: Transfer, ts: i64, s': State, r: Receipt)
    requires Inv(s) && Small(t) && CommitsTransfer(digest, s, t, ts, s', Ok(r)) && r.transferId !in s.transfers
    ensures r.transferId in s'.transfers && s'.transfers[r.transferId].envelope.metadata == t.metadata
  {
    hide Inv, Grows, ResolvesTo, CommitsPinned, WithSnapshots, ResolutionFails;
    var e :| ResolvesTo(digest, s, t, e) && CommitsEnvelope(digest, s, e, ts, s', Ok(r));
    LogParts(s);
    ResolvedRealises(digest, s, t, e);
    CreatesCounted(digest, s, t, e);
    CommitDecides(digest, s, e, ts, s', Ok(r));
    hide Realises, Ready;
    var l, at :| Ready(s, RequestOf(digest, e, l, at)) && s' == Applied(s, RequestOf(digest, e, l, at));
    assert e.metadata == t.metadata by { RealisedMetadata(s, t, e); }
    AppliedFiles(s, RequestOf(digest, e, l, at));
  }

  lemma RealisedMetadata(s: State, t: Transfer, e: Envelope)
    requires Realises(s, t, e)
    ensures e.metadata == t.metadata
  {
  }

  lemma AppliedFiles(s: State, req: CommitRequest)
    ensures req.transferId in Applied(s, req).transfers && Applied(s, req).transfers[req.transferId] == req.record
  {
  }

  /** The hold's own trade, seen from a hold that is no destination and no funder. */
  lemma OwnHold(sub: i64, trade: Transfer, h: AccountId)
    requires Apart(LegTable(sub, trade)) && IsHold(LegTable(sub, trade), h)
    ensures HoldOfTrade(sub, trade, h)
  {
    var legs := LegTable(sub, trade);
    var j :| 0 <= j < |legs| && legs[j].hold == h;
    forall i | 0 <= i < |trade.movements| ensures trade.movements[i].from != h {
      assert legs[i].funder != legs[j].hold;
    }
    assert HoldOf(sub, trade.movements[j].to) == h;
  }

  /** Trades whose accounts are not under the trade's subaccount keep clear of its holds. */
  lemma ApartBySub(sub: i64, trade: Transfer)
    requires forall i :: 0 <= i < |trade.movements| ==> trade.movements[i].from.sub != sub && trade.movements[i].to.sub != sub
    ensures Apart(LegTable(sub, trade))
  {
  }

  /** A transaction, one of its holds, and the authorization that opened it. */
  ghost predicate Opened(k: Parked, digest: Digest, sub: i64, trade: Transfer, q: Path) {
    && k.codec.Faithful() && IsPath(digest, k.codec, q) && Inv(q.states[0])
    && Parks(trade, sub, q, Receipt(k.inflight), k.legs)
    && k.inflight !in q.states[0].transfers
    && Apart(k.legs) && IsHold(k.legs, k.h)
  }

  /** Authorizing puts the hold in order, files the leg table and leaves a hold that
      forbids overdraft. */
  lemma AuthorizeOpens(k: Parked, digest: Digest, sub: i64, trade: Transfer, q: Path)
    requires Opened(k, digest, sub, trade, q)
    ensures var s := q.states[|q.ops|];
      Inv(s) && HoldOk(k, s) && Forbids(s, k.h) && k.inflight in s.transfers && LegsIn(k.codec, s, k.inflight) == k.legs
  {
    hide Inv, Grows, Performs, HoldOk, Apart, Forbids, HoldOfTrade, LegTable;
    var n := |q.ops| - 1;
    UnregisteredHoldOk(k, q.states[0]);
    OwnHold(sub, trade, k.h);
    PathKeepsHold(k, digest, q, n + 1);
    PathInv(digest, k.codec, q, n);
    BookkeepingFilesNothing(digest, k.codec, q, n);
    assert Performs(digest, k.codec, q.states[n], q.ops[n], q.states[n + 1]);
    TradeFiled(k, digest, sub, trade, q.states[n], q.states[n + 1]);
  }

  lemma TradeFiled(k: Parked, digest: Digest, sub: i64, trade: Transfer, s: State, s': State)
    requires Inv(s) && k.codec.Faithful() && Performs(digest, k.codec, s, Authorizing(sub, trade, Ok(Receipt(k.inflight))), s')
    requires k.inflight !in s.transfers && k.legs == LegTable(sub, trade)
    ensures k.inflight in s'.transfers && LegsIn(k.codec, s', k.inflight) == k.legs
  {
    hide Inv, CommitsTransfer;
    var t := Rewritten(k.codec, sub, trade);
    var ts :| CommitsTransfer(digest, s, t, ts, s', Ok(Receipt(k.inflight)));
    RewrittenSmall(k.codec, sub, trade);
    FiledAs(digest, s, t, ts, s', Receipt(k.inflight));
  }

  // ----- and after it -----

  /** Whatever follows: the transaction's own confirms, voids and closings in any order, and
      anything that is clear of the hold. */
  ghost predicate Follows(k: Parked, p: Path) {
    forall j :: 0 <= j < |p.ops| && j < |p.states| ==>
      OwnOp(k.inflight, k.legs, Confirming, p.ops[j]) || OwnOp(k.inflight, k.legs, Voiding, p.ops[j]) || Clear(k, p.states[j], p.ops[j])
  }

  lemma FollowsClear(k: Parked, digest: Digest, p: Path, j: nat)
    requires IsPath(digest, k.codec, p) && Inv(p.states[0]) && k.inflight in p.states[0].transfers
    requires Apart(k.legs) && IsHold(k.legs, k.h) && Follows(k, p) && j < |p.ops|
    ensures Clear(k, p.states[j], p.ops[j])
  {
    hide Inv, Performs, OwnOp, Clear, LogsKept, SpentKept, ClosedKept;
    PathInv(digest, k.codec, p, j);
    if OwnOp(k.inflight, k.legs, Confirming, p.ops[j]) {
      SettlesClear(k, Confirming, p.states[j], p.ops[j]);
    } else if OwnOp(k.inflight, k.legs, Voiding, p.ops[j]) {
      SettlesClear(k, Voiding, p.states[j], p.ops[j]);
    }
  }

  /** So do the paths of `confirm`, `confirm_all` and `void`. */
  lemma SweepFollows(k: Parked, role: Role, p: Path)
    requires OnlySettles(k.inflight, k.legs, role, p.ops)
    ensures Follows(k, p)
  {
    hide OwnOp, Clear;
  }

  function Join(p: Path, q: Path): Path
    requires q.states != []
  {
    Path(p.states + q.states[1..], p.ops + q.ops)
  }

  /** And one call after another. */
  lemma JoinFollows(k: Parked, digest: Digest, p: Path, q: Path)
    requires IsPath(digest, k.codec, p) && IsPath(digest, k.codec, q) && p.states[|p.ops|] == q.states[0]
    requires Follows(k, p) && Follows(k, q)
    ensures IsPath(digest, k.codec, Join(p, q)) && Follows(k, Join(p, q))
  {
    hide Performs, OwnOp, Clear;
    var r := Join(p, q);
    forall i {:trigger r.ops[i]} | 0 <= i < |r.ops|
      ensures Performs(digest, k.codec, r.states[i], r.ops[i], r.states[i + 1])
      ensures OwnOp(k.inflight, k.legs, Confirming, r.ops[i]) || OwnOp(k.inflight, k.legs, Voiding, r.ops[i]) || Clear(k, r.states[i], r.ops[i])
    {
      if i < |p.ops| {
        assert r.states[i] == p.states[i] && r.ops[i] == p.ops[i] && r.states[i + 1] == p.states[i + 1];
      } else {
        var j := i - |p.ops|;
        assert r.states[i] == q.states[j] && r.ops[i] == q.ops[j] && r.states[i + 1] == q.states[j + 1];
      }
    }
  }

  /** From an unregistered hold to any later moment: after `authorize` succeeded, whatever
      follows and wherever it stops, the hold's balance is what was authorized less what was
      confirmed and voided, and the leg table stays on file. */
  lemma ParkedConserves(k: Parked, digest: Digest, sub: i64, trade: Transfer, q: Path, p: Path, i: nat, records: seq<EnvelopeRecord>, x: AssetId)
    requires Opened(k, digest, sub, trade, q)
    requires IsPath(digest, k.codec, p) && p.states[0] == q.states[|q.ops|] && Follows(k, p) && i < |p.states|
    requires Balance.IsTail(p.states[i], k.h, None, None, records)
    ensures LineConserves(k, p.states[i], records, x)
    ensures LegsIn(k.codec, p.states[i], k.inflight) == k.legs
  {
    hide Inv, HoldOk, Performs, Forbids, Parks, Apart, Clear, Follows, Balance.IsTail, LineConserves, LogsKept, SpentKept, ClosedKept;
    AuthorizeOpens(k, digest, sub, trade, q);
    forall j | 0 <= j < |p.ops| ensures Clear(k, p.states[j], p.ops[j]) {
      FollowsClear(k, digest, p, j);
    }
    PathInv(digest, k.codec, p, i);
    ForbidsKept(p.states[0], p.states[i], k.h);
    OperationsConserve(k, digest, p, i, records, x);
  }

  /** In particular through a confirm or a void: every state of a sweep that read its leg table
      from the log, straight after `authorize` or after anything that followed it. */
  lemma SweepConserves(
      k: Parked, digest: Digest, sub: i64, trade: Transfer, q: Path, p: Path, sweep: Path, role: Role, i: nat, records: seq<EnvelopeRecord>, x: AssetId)
    requires Opened(k, digest, sub, trade, q)
    requires IsPath(digest, k.codec, p) && p.states[0] == q.states[|q.ops|] && Follows(k, p)
    requires IsPath(digest, k.codec, sweep) && sweep.states[0] == p.states[|p.ops|]
    requires OnlySettles(k.inflight, LegsIn(k.codec, sweep.states[0], k.inflight), role, sweep.ops)
    requires i < |sweep.states| && Balance.IsTail(sweep.states[i], k.h, None, None, records)
    ensures LineConserves(k, sweep.states[i], records, x)
  {
    hide Opened, IsPath, Follows, OnlySettles, LineConserves, Balance.IsTail;
    PathShaped(digest, k.codec, p);
    LegsStayFiled(k, digest, sub, trade, q, p);
    SweepFollows(k, role, sweep);
    JoinFollows(k, digest, p, sweep);
    JoinedState(p, sweep, i);
    ParkedConserves(k, digest, sub, trade, q, Join(p, sweep), |p.ops| + i, records, x);
  }

  lemma PathShaped(digest: Digest, codec: Codec, p: Path)
    requires IsPath(digest, codec, p)
    ensures |p.states| == |p.ops| + 1
  {
  }

  lemma JoinedState(p: Path, sweep: Path, i: nat)
    requires |p.states| == |p.ops| + 1 && i < |sweep.states| && sweep.states[0] == p.states[|p.ops|]
    ensures Join(p, sweep).states[|p.ops| + i] == sweep.states[i] && Join(p, sweep).states[0] == p.states[0]
  {
  }

  /** The next call reads the leg table of the authorization. */
  lemma LegsStayFiled(k: Parked, digest: Digest, sub: i64, trade: Transfer, q: Path, p: Path)
    requires Opened(k, digest, sub, trade, q)
    requires IsPath(digest, k.codec, p) && p.states[0] == q.states[|q.ops|]
    ensures LegsIn(k.codec, p.states[|p.ops|], k.inflight) == k.legs
  {
    hide Inv, HoldOk, Performs, Forbids, Parks, Apart, Clear, LogsKept, SpentKept, ClosedKept;
    AuthorizeOpens(k, digest, sub, trade, q);
    PathInv(digest, k.codec, p, |p.ops|);
  }
}

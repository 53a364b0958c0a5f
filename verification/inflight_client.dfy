/** Inflight operations over the ledger, step by step: `authorize`, `confirm`, `confirm_all`
    and `void` (crates/kuatia/src/inflight.rs).  Each returns, as a ghost, the path of
    settlements and bookkeeping steps it took, also when it stops part way. */
module InflightClient {
  import opened Wrappers
  import opened Domain
  import opened Amounts
  import opened Store
  import opened Events
  import opened Sorting
  import opened MemStore
  import opened Runs
  import opened RunProofs
  import opened Resolution
  import opened LedgerOps
  import opened Intents
  import opened LedgerClient
  import opened Inflight
  import opened InflightOps
  import opened InflightParked
  import opened InflightAnswers
  import Validate
  import Reads = Balance

  /** A version-1 account that holds inflight funds and may not go negative. */
  function HoldAccount(codec: Codec, hold: AccountId, destination: AccountId, book: BookId): (a: Account)
    ensures a.ForbidsOverdraft() && InflightBit(a.flags) && !a.IsFrozen() && !a.IsClosed()
  {
    Account(hold, 1, 0xC, book, codec.tag([], Hold(destination)))
  }

  class InflightLedger {
    const ledger: Ledger
    const codec: Codec

    constructor (ledger: Ledger, codec: Codec)
      ensures this.ledger == ledger && this.codec == codec
    {
      this.ledger, this.codec := ledger, codec;
    }

    ghost function Now(): State
      reads ledger.store
    {
      ledger.store.View()
    }

    /** A path from `start` to `s`. */
    ghost predicate Along(start: State, p: Path, s: State) {
      && IsPath(ledger.digest, codec, p) && p.states[0] == start && p.states[|p.ops|] == s
      && Inv(start) && Inv(s) && Grows(start, s)
    }

    lemma Extends(start: State, p: Path, s: State, op: Op, s': State)
      requires Along(start, p, s) && Performs(ledger.digest, codec, s, op, s')
      ensures Along(start, Extend(p, op, s'), s')
      ensures AllNew(Extend(p, op, s')) ==> AllNew(p)
      ensures AllNew(Extend(p, op, s')) && op.Settling? && op.answer.Ok? ==> op.answer.value.transferId !in s.transfers
    {
      hide Inv, Grows, Performs;
      PerformKeepsInv(ledger.digest, codec, s, op, s');
      LaterGrows(start, s, s');
      NewBefore(p, op, s');
    }

    static lemma NewBefore(p: Path, op: Op, s: State)
      requires |p.states| == |p.ops| + 1
      ensures AllNew(Extend(p, op, s)) ==> AllNew(p)
      ensures AllNew(Extend(p, op, s)) && op.Settling? && op.answer.Ok? ==> op.answer.value.transferId !in p.states[|p.ops|].transfers
    {
      var q := Extend(p, op, s);
      assert q.ops[|p.ops|] == op && q.states[|p.ops|] == p.states[|p.ops|];
      assert forall i :: 0 <= i < |p.ops| ==> q.ops[i] == p.ops[i] && q.states[i] == p.states[i];
    }

    // ----- the parts -----

    /** `settle`, one of `legs`' own. */
    method Settle(st: Settlement, ghost legs: seq<Leg>, ts: i64, ghost start: State, ghost p: Path) returns (r: Answer, ghost q: Path)
      requires Along(start, p, Now()) && Proper(st.inflight, legs, st.role, st) && OnlySettles(st.inflight, legs, st.role, p.ops)
      modifies ledger.store
      ensures Along(start, q, Now()) && q == Extend(p, Settling(st, r), Now())
      ensures OnlySettles(st.inflight, legs, st.role, q.ops) && (AllNew(q) ==> AllNew(p))
      ensures AllNew(q) && r.Ok? && st.amount > 0 ==> SettleEffect(old(Now()), st, Now())
      ensures KeepsTidy(old(Now()), Now(), st.hold)
    {
      ghost var s := Now();
      hide Inv, Grows, CommitsTransfer, SettleEffect, AllNew, IsPath, KeepsTidy;
      ledger.RowsKeyed();
      r := ledger.Commit(SettleTransfer(codec, st), ts);
      q := Extend(p, Settling(st, r), Now());
      Extends(start, p, s, Settling(st, r), Now());
      OnlySettlesPush(st.inflight, legs, st.role, p.ops, Settling(st, r));
      SettleSpares(ledger.digest, codec, s, st, r, Now());
      if r.Ok? && st.amount > 0 && r.value.transferId !in s.transfers {
        SettleMoves(ledger.digest, codec, s, st, ts, Now(), r.value);
      }
    }

    /** `balance`, read authoritatively. */
    method Balance(hold: AccountId, asset: AssetId) returns (r: Result<Cent, InflightError>)
      ensures r.Ok? ==> r.value == HeldIn(Now(), Key(hold, asset))
      ensures r.Err? ==> r.error == Failed(AmountOverflow) && Reads.Unsummable(Now(), hold, asset)
    {
      var b := Reads.ComputeBalance(ledger.store.View(), hold, asset);
      if b.None? { return Err(Failed(AmountOverflow)); }
      return Ok(b.value);
    }

    /** Closes one of the legs' holds if it is empty and still open. */
    method CloseIfDrained(
        hold: AccountId, ts: i64, ghost inflight: EnvelopeId, ghost legs: seq<Leg>, ghost role: Role, ghost start: State, ghost p: Path)
        returns (r: Option<InflightError>, ghost q: Path)
      requires Along(start, p, Now()) && OnlySettles(inflight, legs, role, p.ops) && IsHold(legs, hold)
      modifies ledger.store
      ensures Along(start, q, Now()) && OnlySettles(inflight, legs, role, q.ops)
      ensures Live(Now()) == old(Live(Now())) && (AllNew(q) ==> AllNew(p))
      ensures Kept(p, q, Now()) && forall a :: Tidy(old(Now()), a) ==> Tidy(Now(), a)
      ensures r.None? ==> Tidy(Now(), hold)
      ensures r.Some? ==> Now() == old(Now()) && CannotClose(Now(), hold, r.value)
    {
      hide Inv, Grows, AllNew, IsPath, OnlySettles, IsHold, Transitioned;
      q := p;
      var busy := ledger.HasLivePostings(hold);
      if busy { return None, q; }
      var account := Head(ledger.store.View(), hold);
      if account.None? { return Some(Failed(StoreFailed)), q; }
      if account.value.IsClosed() { return None, q; }
      ghost var s := Now();
      AccountsIn(s);
      var failed := ledger.Close(hold, ts);
      if failed.Some? { return Some(CloseFailed(failed.value)), q; }
      q := Closed(start, p, s, hold, account.value, ts, Now(), inflight, legs, role);
      StillTidy(s, Now());
      return None, q;
    }

    /** The path with the closing of a hold at its end. */
    ghost method Closed(
        start: State, p: Path, s: State, hold: AccountId, base: Account, ts: i64, s': State, inflight: EnvelopeId, legs: seq<Leg>, role: Role)
        returns (q: Path)
      requires Along(start, p, s) && OnlySettles(inflight, legs, role, p.ops) && IsHold(legs, hold)
      requires Head(s, hold) == Some(base) && !base.IsClosed() && Transitioned(s, hold, Lifecycle.Close, ts, s')
      ensures Along(start, q, s') && OnlySettles(inflight, legs, role, q.ops)
      ensures Live(s') == Live(s) && (AllNew(q) ==> AllNew(p)) && Kept(p, q, s') && Grows(s, s')
    {
      hide Inv, Grows, AllNew, Along, OnlySettles, IsHold, Performs, Live, Transitioned, CommitTransition, Mutated;
      var op := Keeping(DoTransition(Lifecycle.Close, base, ts));
      InvHere(start, p, s);
      HeadKnown(s, hold);
      ClosedParts(s, base, ts, s');
      CloseIsAStep(ledger.digest, codec, s, base, ts, s');
      Extends(start, p, s, op, s');
      OnlySettlesPush(inflight, legs, role, p.ops, op);
      q := Extend(p, op, s');
      PerformKeepsInv(ledger.digest, codec, s, op, s');
    }

    static lemma ClosedParts(s: State, base: Account, ts: i64, s': State)
      requires Head(s, base.id) == Some(base) && Transitioned(s, base.id, Lifecycle.Close, ts, s')
      ensures Live(s') == Live(s) && base.version + 1 < TWO64
      ensures s' == CommitTransition(s, Mutated(Lifecycle.Close, base), LedgerEvent(ts, EventFor(Lifecycle.Close, base.id, base.version + 1))).0
    {
      hide CommitTransition;
    }

    /** Closing an account takes nothing from another and opens none. */
    static lemma StillTidy(s: State, s': State)
      requires Live(s') == Live(s) && Grows(s, s')
      ensures forall a :: Tidy(s, a) ==> Tidy(s', a)
    {
      hide Grows, ClosedIn, Live;
      forall a | Tidy(s, a) ensures Tidy(s', a) {
        if ClosedIn(s, a) { ClosedStays(s, s', a); }
      }
    }

    static lemma AccountsIn(s: State)
      requires Inv(s)
      ensures AccountsOk(s)
    {
    }

    static lemma HeadKnown(s: State, a: AccountId)
      requires Inv(s) && Head(s, a).Some?
      ensures Head(s, a).value.id == a
    {
      assert LogOk(a, s.accounts[a]);
    }

    static lemma CloseIsAStep(digest: Digest, codec: Codec, s: State, base: Account, ts: i64, s': State)
      requires Head(s, base.id) == Some(base) && !base.IsClosed() && base.version + 1 < TWO64
      requires s' == CommitTransition(s, Mutated(Lifecycle.Close, base), LedgerEvent(ts, EventFor(Lifecycle.Close, base.id, base.version + 1))).0
      ensures Performs(digest, codec, s, Keeping(DoTransition(Lifecycle.Close, base, ts)), s')
    {
      hide CommitTransition, Mutated;
      var past := [s];
      assert past[0] == s && Head(past[0], base.id) == Some(base);
    }

    method LoadInflight(inflight: EnvelopeId) returns (r: Result<(BookId, seq<Leg>), InflightError>)
      ensures r.Ok? ==> r.value == (BookIn(Now(), inflight), LegsIn(codec, Now(), inflight))
      ensures r.Ok? <==> inflight in Now().transfers && ReadsLegs(codec, Now().transfers[inflight].envelope.metadata)
      ensures r.Err? ==> r.error == if inflight in Now().transfers then NotInflightTransaction(inflight) else InflightNotFound(inflight)
    {
      if inflight !in ledger.store.transfers { return Err(InflightNotFound(inflight)); }
      var e := ledger.store.transfers[inflight].envelope;
      match codec.read(e.metadata) {
        case Some(Authorize(legs)) => return Ok((e.book, legs));
        case _ => return Err(NotInflightTransaction(inflight));
      }
    }

    // ----- confirm_all -----

    /** What a sweep from `start` has done: settlements of its role and bookkeeping only, and
        the answer that goes with them; and if it succeeded and nothing was answered from the
        log, every hold is empty. */
    ghost predicate Sweep(start: State, inflight: EnvelopeId, role: Role, r: Result<seq<Receipt>, InflightError>, q: Path)
      reads ledger.store
    {
      && Along(start, q, Now())
      && OnlySettles(inflight, LegsIn(codec, start, inflight), role, q.ops)
      && SweepAnswers(codec, start, inflight, role, q, Now(), r)
      && (r.Ok? && Sweeping(start, LegsIn(codec, start, inflight), q) ==> Swept(Now(), LegsIn(codec, start, inflight)))
    }

    /** One hold and asset: its whole positive balance goes to the destination. */
    method ConfirmAsset(book: BookId, inflight: EnvelopeId, legs: seq<Leg>, n: nat, k: nat, ts: i64, ghost start: State, ghost p: Path, ghost done: set<Key>)
        returns (r: Result<Option<Receipt>, InflightError>, ghost q: Path)
      requires n < |GroupHolds(legs)| && k < |GroupHolds(legs)[n].assets|
      requires Along(start, p, Now()) && OnlySettles(inflight, legs, Confirming, p.ops) && SweptSoFar(Now(), start, legs, p, done)
      requires Going(book, legs, Confirming, p)
      modifies ledger.store
      ensures Along(start, q, Now()) && OnlySettles(inflight, legs, Confirming, q.ops)
      ensures r.Ok? ==> SweptSoFar(Now(), start, legs, q, done + {Key(GroupHolds(legs)[n].hold, GroupHolds(legs)[n].assets[k])})
      ensures Sweeps(book, legs, Confirming, q, ReceiptsOf(p.ops), AsReceipts(r)) && KeepsTidy(old(Now()), Now(), GroupHolds(legs)[n].hold)
    {
      hide Inv, Grows, IsPath, OnlySettles, Proper, AllNew, SettleEffect, LiveSum, Sweeps, Going, KeepsTidy;
      q := p;
      Standing(book, legs, Confirming, p);
      KeepsTidyRefl(Now(), GroupHolds(legs)[n].hold);
      var g := GroupHolds(legs)[n];
      ghost var s, key := Now(), Key(g.hold, g.assets[k]);
      GroupKey(legs, n, done, g.assets[k]);
      var bal := Balance(g.hold, g.assets[k]);
      if bal.Err? {
        SumFails(book, legs, Confirming, start, p, s, n, k);
        return Err(bal.error), q;
      }
      if Sweeping(start, legs, p) { NothingHeld(start, s, legs, g.hold, g.assets[k]); }
      if bal.value <= 0 { return Ok(None), q; }
      var st := Settlement(book, inflight, g.hold, g.destination, g.destination, g.assets[k], bal.value, Confirming);
      GroupProper(inflight, legs, book, n, k, bal.value);
      var answer;
      answer, q := Settle(st, legs, ts, start, q);
      ConfirmedOne(book, legs, start, p, s, st, answer, Now());
      if answer.Err? { return Err(Failed(answer.error)), q; }
      if Sweeping(start, legs, q) {
        ApartFrom(legs, n, done);
        SettleKeepsDrained(s, st, Now(), done);
      }
      return Ok(Some(answer.value)), q;
    }

    static lemma KeepsTidyRefl(s: State, h: AccountId)
      ensures KeepsTidy(s, s, h)
    {
    }

    /** A sweep that did nothing more. */
    static lemma Standing(book: BookId, legs: seq<Leg>, role: Role, p: Path)
      requires Going(book, legs, role, p)
      ensures Sweeps(book, legs, role, p, ReceiptsOf(p.ops), Ok([]))
    {
    }

    lemma SumFails(book: BookId, legs: seq<Leg>, role: Role, start: State, p: Path, s: State, n: nat, k: nat)
      requires Going(book, legs, role, p) && Along(start, p, s) && n < |GroupHolds(legs)| && k < |GroupHolds(legs)[n].assets|
      requires Reads.Unsummable(s, GroupHolds(legs)[n].hold, GroupHolds(legs)[n].assets[k])
      ensures Sweeps(book, legs, role, p, ReceiptsOf(p.ops), Err(Failed(AmountOverflow)))
    {
      hide Inv, Grows, Performs, Paying, Reads.Unsummable;
      var g := GroupHolds(legs)[n];
      assert g.assets[k] in AssetsFrom(legs, g.hold);
    }

    lemma CloseFails(book: BookId, legs: seq<Leg>, role: Role, start: State, p: Path, s: State, h: AccountId, error: InflightError, before: seq<Receipt>)
      requires Going(book, legs, role, p) && Along(start, p, s) && IsHold(legs, h) && CannotClose(s, h, error)
      ensures Sweeps(book, legs, role, p, before, Err(error))
    {
      hide Inv, Grows, Performs, Paying, CannotClose;
    }

    /** One whole balance confirmed. */
    lemma ConfirmedOne(book: BookId, legs: seq<Leg>, start: State, p: Path, s: State, st: Settlement, answer: Answer, s': State)
      requires Going(book, legs, Confirming, p) && Along(start, p, s) && st.book == book && 0 < st.amount == HeldIn(s, Key(st.hold, st.asset))
      ensures Sweeps(book, legs, Confirming, Extend(p, Settling(st, answer), s'), ReceiptsOf(p.ops), OneReceipt(answer))
    {
      hide Inv, Grows, Performs, HeldIn, Paying, IsPath;
      ConfirmedPush(book, legs, p, st, answer, s');
      ReceiptsPush(p.ops, Settling(st, answer));
      if answer.Err? { BrokenOff(p, st, answer.error, s'); }
    }

    /** A further part of a sweep, added to what went before. */
    static lemma Onward(
        book: BookId, legs: seq<Leg>, role: Role, q: Path, before: seq<Op>, step: Result<seq<Receipt>, InflightError>, first: seq<Op>, receipts: seq<Receipt>)
      requires Sweeps(book, legs, role, q, ReceiptsOf(before), step) && ReceiptsOf(before) == ReceiptsOf(first) + receipts
      ensures step.Ok? ==> Going(book, legs, role, q) && ReceiptsOf(q.ops) == ReceiptsOf(first) + (receipts + step.value)
      ensures step.Err? ==> Sweeps(book, legs, role, q, ReceiptsOf(first), Err(step.error))
    {
      hide Paying, ReceiptsOf, AllOk, SweepStops;
    }

    static lemma Done(book: BookId, legs: seq<Leg>, role: Role, q: Path, before: seq<Receipt>, receipts: seq<Receipt>)
      requires Going(book, legs, role, q) && ReceiptsOf(q.ops) == before + receipts
      ensures Sweeps(book, legs, role, q, before, Ok(receipts))
    {
      hide Paying, ReceiptsOf, AllOk;
    }

    static lemma NotBegun(book: BookId, legs: seq<Leg>, role: Role, s: State)
      ensures Going(book, legs, role, Path([s], [])) && ReceiptsOf(Path([s], []).ops) == []
    {
    }

    /** A sweep never blames the handle. */
    static lemma SweepErrors(book: BookId, legs: seq<Leg>, role: Role, q: Path, before: seq<Receipt>, r: Result<seq<Receipt>, InflightError>)
      requires Sweeps(book, legs, role, q, before, r)
      ensures r.Err? ==> r.error.Failed? || r.error.CloseFailed?
    {
      hide Paying, ReceiptsOf, AllOk, SumStops, BrokeOff;
    }

    static lemma TidyThrough(s: State, m: State, s': State, h: AccountId)
      requires KeepsTidy(s, m, h) && forall a :: Tidy(m, a) ==> Tidy(s', a)
      ensures KeepsTidy(s, s', h)
    {
      hide Tidy;
    }

    static ghost predicate TidyGroups(s: State, legs: seq<Leg>, n: nat) { forall j :: 0 <= j < n && j < |GroupHolds(legs)| ==> Tidy(s, GroupHolds(legs)[j].hold) }

    /** Every key of group `n` is among those done. */
    static ghost predicate GroupDone(legs: seq<Leg>, n: nat, done: set<Key>)
      requires n < |GroupHolds(legs)|
    {
      forall x :: x in GroupHolds(legs)[n].assets ==> Key(GroupHolds(legs)[n].hold, x) in done
    }

    static ghost predicate KeysOf(legs: seq<Leg>, n: nat, done: set<Key>) {
      n <= |GroupHolds(legs)| && forall j :: 0 <= j < n ==> GroupDone(legs, j, done)
    }

    static lemma KeysPush(legs: seq<Leg>, n: nat, before: set<Key>, done: set<Key>)
      requires n < |GroupHolds(legs)| && KeysOf(legs, n, before) && before <= done && GroupDone(legs, n, done)
      ensures KeysOf(legs, n + 1, done)
    {
      hide GroupHolds;
      forall j | 0 <= j < n ensures GroupDone(legs, j, done) {
        assert GroupDone(legs, j, before);
      }
    }

    static lemma SweptHere(s: State, start: State, legs: seq<Leg>, q: Path, done: set<Key>)
      requires SweptSoFar(s, start, legs, q, done) && Sweeping(start, legs, q) && KeysOf(legs, |GroupHolds(legs)|, done)
      ensures Swept(s, legs)
    {
      hide GroupHolds, SweptSoFar, Sweeping, Swept;
      forall n, x | 0 <= n < |GroupHolds(legs)| && x in GroupHolds(legs)[n].assets ensures Key(GroupHolds(legs)[n].hold, x) in done {
        assert GroupDone(legs, n, done);
      }
      SweptByGroups(s, start, legs, q, done);
    }

    static lemma NoneTidied(s: State, legs: seq<Leg>)
      ensures TidyGroups(s, legs, 0) && KeysOf(legs, 0, {})
    {
    }

    static lemma GroupTidied(s: State, s': State, legs: seq<Leg>, n: nat)
      requires n < |GroupHolds(legs)| && TidyGroups(s, legs, n) && KeepsTidy(s, s', GroupHolds(legs)[n].hold) && Tidy(s', GroupHolds(legs)[n].hold)
      ensures TidyGroups(s', legs, n + 1)
    {
      hide Tidy, GroupHolds;
      GroupsDistinct(legs);
    }

    static lemma GroupsTidied(s: State, legs: seq<Leg>)
      requires TidyGroups(s, legs, |GroupHolds(legs)|)
      ensures AllTidy(s, legs)
    {
      hide Tidy;
      forall i | 0 <= i < |legs| ensures Tidy(s, legs[i].hold) {
        GroupOf(legs, i);
      }
    }

    static function OneReceipt(answer: Answer): Result<seq<Receipt>, InflightError> {
      match answer
      case Err(error) => Err(Failed(error))
      case Ok(receipt) => Ok([receipt])
    }

    static lemma GroupKey(legs: seq<Leg>, n: nat, done: set<Key>, x: AssetId)
      requires n < |GroupHolds(legs)| && HoldKeys(legs, done)
      ensures HoldKeys(legs, done + {Key(GroupHolds(legs)[n].hold, x)})
      ensures exists i :: 0 <= i < |legs| && legs[i].hold == GroupHolds(legs)[n].hold
    {
      GroupDestination(legs, n);
    }

    /** A hold's destination is neither it nor any other hold. */
    static lemma ApartFrom(legs: seq<Leg>, n: nat, done: set<Key>)
      requires n < |GroupHolds(legs)| && HoldKeys(legs, done) && Apart(legs)
      ensures GroupHolds(legs)[n].destination != GroupHolds(legs)[n].hold
      ensures forall k :: k in done ==> k.account != GroupHolds(legs)[n].destination
    {
      GroupDestination(legs, n);
    }

    static lemma GroupHold(legs: seq<Leg>, n: nat)
      requires n < |GroupHolds(legs)|
      ensures IsHold(legs, GroupHolds(legs)[n].hold)
    {
      GroupDestination(legs, n);
    }

    /** One group: all its assets, then the hold is closed if that drained it. */
    method ConfirmGroup(book: BookId, inflight: EnvelopeId, legs: seq<Leg>, n: nat, clock: nat -> i64, ghost start: State, ghost p: Path, ghost keys: set<Key>)
        returns (r: Result<seq<Receipt>, InflightError>, ghost q: Path, ghost done: set<Key>)
      requires n < |GroupHolds(legs)|
      requires Along(start, p, Now()) && OnlySettles(inflight, legs, Confirming, p.ops) && SweptSoFar(Now(), start, legs, p, keys)
      requires Going(book, legs, Confirming, p)
      modifies ledger.store
      ensures Along(start, q, Now()) && OnlySettles(inflight, legs, Confirming, q.ops)
      ensures r.Ok? ==> SweptSoFar(Now(), start, legs, q, done) && keys <= done
      ensures r.Ok? ==> GroupDone(legs, n, done)
      ensures Sweeps(book, legs, Confirming, q, ReceiptsOf(p.ops), r) && KeepsTidy(old(Now()), Now(), GroupHolds(legs)[n].hold)
      ensures r.Ok? ==> Tidy(Now(), GroupHolds(legs)[n].hold)
    {
      hide Inv, Grows, Along, OnlySettles, SweptSoFar, GroupHolds, AllNew, Going, Sweeps, KeepsTidy, Tidy, CannotClose;
      q, done := p, keys;
      KeepsTidyRefl(Now(), GroupHolds(legs)[n].hold);
      var g := GroupHolds(legs)[n];
      var receipts: seq<Receipt> := [];
      for k := 0 to |g.assets|
        invariant Along(start, q, Now()) && OnlySettles(inflight, legs, Confirming, q.ops) && SweptSoFar(Now(), start, legs, q, done) && keys <= done
        invariant forall i :: 0 <= i < k ==> Key(g.hold, g.assets[i]) in done
        invariant Going(book, legs, Confirming, q) && ReceiptsOf(q.ops) == ReceiptsOf(p.ops) + receipts && KeepsTidy(old(Now()), Now(), g.hold)
      {
        ghost var mid, sofar := Now(), q.ops;
        var step;
        step, q := ConfirmAsset(book, inflight, legs, n, k, clock(|receipts|), start, q, done);
        Onward(book, legs, Confirming, q, sofar, AsReceipts(step), p.ops, receipts);
        TidyAfter(old(Now()), mid, Now(), g.hold);
        if step.Err? { return Err(step.error), q, done; }
        if step.value.Some? { receipts := receipts + [step.value.value]; }
        done := done + {Key(g.hold, g.assets[k])};
      }
      ghost var before, path := Now(), q;
      GroupHold(legs, n);
      var closed;
      closed, q := CloseIfDrained(g.hold, clock(|receipts|), inflight, legs, Confirming, start, q);
      TidyThrough(old(Now()), before, Now(), g.hold);
      KeptGoing(book, legs, Confirming, path, q, Now());
      if closed.Some? {
        CloseFails(book, legs, Confirming, start, q, Now(), g.hold, closed.value, ReceiptsOf(p.ops));
        return Err(closed.value), q, done;
      }
      Done(book, legs, Confirming, q, ReceiptsOf(p.ops), receipts);
      SweptAfterClose(before, Now(), start, legs, path, q, done);
      return Ok(receipts), q, done;
    }

    /** All groups in turn. */
    method ConfirmGroups(book: BookId, inflight: EnvelopeId, legs: seq<Leg>, clock: nat -> i64, ghost start: State, ghost p: Path)
        returns (r: Result<seq<Receipt>, InflightError>, ghost q: Path)
      requires Along(start, p, Now()) && OnlySettles(inflight, legs, Confirming, p.ops) && Going(book, legs, Confirming, p)
      modifies ledger.store
      ensures Along(start, q, Now()) && OnlySettles(inflight, legs, Confirming, q.ops)
      ensures r.Ok? && Sweeping(start, legs, q) ==> Swept(Now(), legs)
      ensures Sweeps(book, legs, Confirming, q, ReceiptsOf(p.ops), r) && (r.Ok? ==> AllTidy(Now(), legs))
    {
      hide Inv, Grows, Along, OnlySettles, SweptSoFar, Sweeping, Swept, GroupHolds, Going, Sweeps, KeepsTidy, Tidy, AllTidy, TidyGroups, ReceiptsOf, AllNew, KeysOf, GroupDone;
      NoneTidied(Now(), legs);
      q := p;
      var groups := GroupHolds(legs);
      ghost var done: set<Key> := {};
      NoKeysYet(Now(), start, legs, q);
      var receipts: seq<Receipt> := [];
      for n := 0 to |groups|
        invariant Along(start, q, Now()) && OnlySettles(inflight, legs, Confirming, q.ops) && SweptSoFar(Now(), start, legs, q, done)
        invariant KeysOf(legs, n, done)
        invariant Going(book, legs, Confirming, q) && ReceiptsOf(q.ops) == ReceiptsOf(p.ops) + receipts && TidyGroups(Now(), legs, n)
      {
        ghost var mid, sofar, before := Now(), q.ops, done;
        var step;
        step, q, done := ConfirmGroup(book, inflight, legs, n, i => clock(|receipts| + i), start, q, done);
        Onward(book, legs, Confirming, q, sofar, step, p.ops, receipts);
        if step.Ok? {
          GroupTidied(mid, Now(), legs, n);
          KeysPush(legs, n, before, done);
        }
        if step.Err? { return Err(step.error), q; }
        receipts := receipts + step.value;
      }
      if Sweeping(start, legs, q) { SweptHere(Now(), start, legs, q, done); }
      Done(book, legs, Confirming, q, ReceiptsOf(p.ops), receipts);
      GroupsTidied(Now(), legs);
      return Ok(receipts), q;
    }

    /** Sweeps every hold's balance to its destination.  When nothing was answered from the
        log, success means that every hold is empty. */
    method ConfirmAll(inflight: EnvelopeId, clock: nat -> i64) returns (r: Result<seq<Receipt>, InflightError>, ghost q: Path)
      requires Inv(Now())
      modifies ledger.store
      ensures Sweep(old(Now()), inflight, Confirming, r, q)
    {
      hide Inv, Grows, Along, OnlySettles, Sweeping, Swept, Sweeps, Going, AllTidy;
      ghost var start := Now();
      q := Path([start], []);
      StartsPath(start);
      NothingYet(inflight, LegsIn(codec, start, inflight));
      var loaded := LoadInflight(inflight);
      if loaded.Err? { return Err(loaded.error), q; }
      NotBegun(loaded.value.0, loaded.value.1, Confirming, start);
      r, q := ConfirmGroups(loaded.value.0, inflight, loaded.value.1, clock, start, q);
      SweepErrors(loaded.value.0, loaded.value.1, Confirming, q, [], r);
    }

    static lemma NothingYet(inflight: EnvelopeId, legs: seq<Leg>)
      ensures OnlySettles(inflight, legs, Confirming, []) && OnlySettles(inflight, legs, Voiding, [])
    {
    }

    lemma StartsPath(s: State)
      requires Inv(s)
      ensures Along(s, Path([s], []), s)
    {
      hide Inv, Grows;
      SameState(s);
    }

    // ----- confirm -----

    /** Settles the requested amounts one by one, each out of the hold of the first leg it
        names, then closes the holds this drained.  What is settled is exactly the requests in
        order up to the first failure; success means all of them. */
    method Confirm(inflight: EnvelopeId, confirms: seq<Movement>, clock: nat -> i64) returns (r: Result<seq<Receipt>, InflightError>, ghost q: Path)
      requires Inv(Now())
      modifies ledger.store
      ensures Along(old(Now()), q, Now())
      ensures OnlySettles(inflight, LegsIn(codec, old(Now()), inflight), Confirming, q.ops)
      ensures Requested(BookIn(old(Now()), inflight), inflight, LegsIn(codec, old(Now()), inflight), confirms, q.ops)
      ensures r.Ok? ==> AllSettled(confirms, q.ops, r.value)
      ensures ConfirmAnswers(codec, old(Now()), inflight, confirms, q, Now(), r)
    {
      hide Inv, Along, OnlySettles, Requested, AllSettled, Tidy, WithinHeld, ConfirmStops, Requesting;
      ghost var start := Now();
      q := Path([start], []);
      StartsPath(start);
      NothingYet(inflight, LegsIn(codec, start, inflight));
      NoRequests(BookIn(start, inflight), inflight, LegsIn(codec, start, inflight), confirms, q);
      var loaded := LoadInflight(inflight);
      if loaded.Err? { return Err(loaded.error), q; }
      var (book, legs) := loaded.value;
      var holds;
      r, holds, q := SettleRequests(book, inflight, legs, confirms, clock, start, q);
      if r.Err? { return r, q; }
      var failed;
      failed, q := CloseTouched(book, inflight, legs, confirms, r.value, holds, i => clock(|confirms| + i), start, q);
      if failed.Some? { return Err(failed.value), q; }
      return r, q;
    }

    /** Closes the holds that were drained. */
    method CloseTouched(
        book: BookId, inflight: EnvelopeId, legs: seq<Leg>, ghost confirms: seq<Movement>, ghost receipts: seq<Receipt>, touched: seq<AccountId>,
        clock: nat -> i64, ghost start: State, ghost p: Path)
        returns (r: Option<InflightError>, ghost q: Path)
      requires Along(start, p, Now()) && Requesting(book, inflight, legs, confirms, p, receipts, touched) && |p.ops| == |confirms|
      modifies ledger.store
      ensures Along(start, q, Now()) && OnlySettles(inflight, legs, Confirming, q.ops)
      ensures Requested(book, inflight, legs, confirms, q.ops) && AllSettled(confirms, q.ops, receipts)
      ensures |q.states| == |q.ops| + 1 && WithinHeld(q)
      ensures r.None? ==> forall i :: 0 <= i < |confirms| && i < |q.ops| && q.ops[i].Settling? ==> Tidy(Now(), q.ops[i].st.hold)
      ensures r.Some? ==> ConfirmStops(legs, confirms, q, r.value) && !OfHandle(r.value)
    {
      hide Inv, Along, OnlySettles, Requested, AllSettled, Tidy, WithinHeld, AllOk, ConfirmStops, HeldIn, IsHold;
      q := p;
      assert confirms[..|p.ops|] == confirms;
      var sorted := SortDedup(Validate.AccountLess, touched);
      for n := 0 to |sorted|
        invariant Along(start, q, Now()) && OnlySettles(inflight, legs, Confirming, q.ops)
        invariant Requested(book, inflight, legs, confirms, q.ops) && AllSettled(confirms, q.ops, receipts)
        invariant WithinHeld(q) && AllOk(q.ops) && |q.states| == |q.ops| + 1 && p.ops <= q.ops
        invariant forall j :: 0 <= j < n ==> Tidy(Now(), sorted[j])
      {
        assert sorted[n] in touched;
        ghost var before := q;
        var closed;
        closed, q := CloseIfDrained(sorted[n], clock(n), inflight, legs, Confirming, start, q);
        KeptWithin(before, q, Now());
        KeptOps(before, q, Now());
        RequestedClosed(book, inflight, legs, confirms, before.ops, q.ops, receipts);
        if closed.Some? {
          CloseStops(legs, confirms, start, q, Now(), sorted[n], closed.value);
          return closed, q;
        }
      }
      TouchedTidy(Now(), confirms, p.ops, q.ops, touched, sorted);
      return None, q;
    }

    static lemma TouchedTidy(s: State, confirms: seq<Movement>, before: seq<Op>, ops: seq<Op>, touched: seq<AccountId>, sorted: seq<AccountId>)
      requires |before| == |confirms| && before <= ops && forall i :: 0 <= i < |before| ==> before[i].Settling? && before[i].st.hold in touched
      requires forall a :: a in touched ==> a in sorted
      requires forall j :: 0 <= j < |sorted| ==> Tidy(s, sorted[j])
      ensures forall i :: 0 <= i < |confirms| && i < |ops| && ops[i].Settling? ==> Tidy(s, ops[i].st.hold)
    {
      hide Tidy;
      forall i | 0 <= i < |confirms| && i < |ops| && ops[i].Settling? ensures Tidy(s, ops[i].st.hold) {
        assert before[i] == ops[i] && before[i].st.hold in sorted;
      }
    }

    lemma Ended(start: State, q: Path, s: State)
      requires Along(start, q, s)
      ensures |q.states| == |q.ops| + 1 && q.states[|q.ops|] == s
    {
    }

    static lemma KeptOps(p: Path, q: Path, s: State)
      requires Kept(p, q, s)
      ensures p.ops <= q.ops && forall i :: |p.ops| <= i < |q.ops| ==> q.ops[i].Keeping?
    {
    }

    lemma CloseStops(legs: seq<Leg>, confirms: seq<Movement>, start: State, q: Path, s: State, h: AccountId, error: InflightError)
      requires Along(start, q, s) && AllOk(q.ops) && |q.ops| >= |confirms| && IsHold(legs, h) && CannotClose(s, h, error)
      ensures |q.states| == |q.ops| + 1 && ConfirmStops(legs, confirms, q, error) && (error.Failed? || error.CloseFailed?)
    {
      hide Inv, Grows, Performs;
    }

    static lemma NoRequests(book: BookId, inflight: EnvelopeId, legs: seq<Leg>, confirms: seq<Movement>, p: Path)
      requires p.ops == [] && |p.states| == 1
      ensures Requested(book, inflight, legs, confirms, []) && Requesting(book, inflight, legs, confirms, p, [], []) && WithinHeld(p)
    {
    }

    /** How far `confirm` has come, nothing refused yet. */
    static ghost predicate Requesting(
        book: BookId, inflight: EnvelopeId, legs: seq<Leg>, confirms: seq<Movement>, q: Path, receipts: seq<Receipt>, touched: seq<AccountId>)
    {
      && |q.states| == |q.ops| + 1 && |q.ops| <= |confirms|
      && OnlySettles(inflight, legs, Confirming, q.ops) && Requested(book, inflight, legs, confirms, q.ops)
      && AllSettled(confirms[..|q.ops|], q.ops, receipts) && WithinHeld(q) && AllOk(q.ops)
      && (forall a :: a in touched ==> IsHold(legs, a))
      && (forall i :: 0 <= i < |q.ops| ==> q.ops[i].Settling? && q.ops[i].st.hold in touched)
    }

    static lemma SoFar(
        book: BookId, inflight: EnvelopeId, legs: seq<Leg>, confirms: seq<Movement>, q: Path, receipts: seq<Receipt>, touched: seq<AccountId>)
      requires Requesting(book, inflight, legs, confirms, q, receipts, touched)
      ensures OnlySettles(inflight, legs, Confirming, q.ops) && Requested(book, inflight, legs, confirms, q.ops) && WithinHeld(q) && AllOk(q.ops)
    {
    }

    /** One request put to the store. */
    static lemma OneRequested(
        book: BookId, inflight: EnvelopeId, legs: seq<Leg>, confirms: seq<Movement>, p: Path, receipts: seq<Receipt>, touched: seq<AccountId>,
        l: Leg, answer: Answer, s: State)
      requires Requesting(book, inflight, legs, confirms, p, receipts, touched) && |p.ops| < |confirms|
      requires exists i: nat :: FirstMatch(legs, confirms[|p.ops|], i) && legs[i] == l
      requires confirms[|p.ops|].amount <= HeldIn(p.states[|p.ops|], Key(l.hold, confirms[|p.ops|].asset))
      ensures var m := confirms[|p.ops|];
        var q := Extend(p, Settling(Settlement(book, inflight, l.hold, m.to, m.to, m.asset, m.amount, Confirming), answer), s);
        && Requested(book, inflight, legs, confirms, q.ops) && WithinHeld(q)
        && match answer
           case Ok(receipt) => Requesting(book, inflight, legs, confirms, q, receipts + [receipt], touched + [l.hold])
           case Err(error) => ConfirmStops(legs, confirms, q, Failed(error))
    {
      hide ClosesHold, Proper, SettledAs, IsHold, FirstMatch, HeldIn, WithinHeld, AllOk, Requested, ConfirmStops, OnlySettles;
      var m := confirms[|p.ops|];
      var st := Settlement(book, inflight, l.hold, m.to, m.to, m.asset, m.amount, Confirming);
      var op, q := Settling(st, answer), Extend(p, Settling(st, answer), s);
      FoundProper(book, inflight, legs, m, l);
      FoundSettled(book, inflight, legs, m, l, answer);
      RequestedPush(book, inflight, legs, confirms, p.ops, |p.ops|, op);
      WithinPush(p, st, answer, s);
      if answer.Err? {
        RequestRefused(legs, confirms, p, st, answer.error, s);
      } else {
        ReceiptsPush(p.ops, op);
        OnlySettlesPush(inflight, legs, Confirming, p.ops, op);
      }
    }

    /** The settlements of `confirm`, and the holds they came from. */
    method SettleRequests(book: BookId, inflight: EnvelopeId, legs: seq<Leg>, confirms: seq<Movement>, clock: nat -> i64, ghost start: State, ghost p: Path)
        returns (r: Result<seq<Receipt>, InflightError>, touched: seq<AccountId>, ghost q: Path)
      requires Along(start, p, Now()) && Requesting(book, inflight, legs, confirms, p, [], []) && p.ops == []
      modifies ledger.store
      ensures Along(start, q, Now()) && OnlySettles(inflight, legs, Confirming, q.ops) && Requested(book, inflight, legs, confirms, q.ops)
      ensures r.Ok? ==> Requesting(book, inflight, legs, confirms, q, r.value, touched) && |q.ops| == |confirms|
      ensures |q.states| == |q.ops| + 1 && WithinHeld(q) && (r.Err? ==> ConfirmStops(legs, confirms, q, r.error) && !OfHandle(r.error))
    {
      hide Inv, Grows, Along, OnlySettles, Proper, Requested, AllSettled, IsHold, WithinHeld, HeldIn, ConfirmStops, FirstMatch, AllOk;
      hide KeepsTidy, AllNew, SettleEffect, Requesting;
      q := p;
      Ended(start, p, Now());
      var receipts: seq<Receipt> := [];
      touched := [];
      for n := 0 to |confirms|
        invariant Along(start, q, Now()) && Requesting(book, inflight, legs, confirms, q, receipts, touched) && |q.ops| == n
      {
        Ended(start, q, Now());
        SoFar(book, inflight, legs, confirms, q, receipts, touched);
        var m := confirms[n];
        var found := FindLeg(legs, m);
        if found.None? {
          RequestFails(legs, confirms, start, q, Now(), LegNotFound(m.to, m.asset));
          return Err(LegNotFound(m.to, m.asset)), touched, q;
        }
        var hold := found.value.hold;
        var held := Balance(hold, m.asset);
        if held.Err? {
          RequestFails(legs, confirms, start, q, Now(), held.error);
          return Err(held.error), touched, q;
        }
        if m.amount > held.value {
          RequestFails(legs, confirms, start, q, Now(), InsufficientHeld(held.value, m.amount));
          return Err(InsufficientHeld(held.value, m.amount)), touched, q;
        }
        var st := Settlement(book, inflight, hold, m.to, m.to, m.asset, m.amount, Confirming);
        ghost var path := q;
        var answer;
        FoundProper(book, inflight, legs, m, found.value);
        answer, q := Settle(st, legs, clock(n), start, q);
        OneRequested(book, inflight, legs, confirms, path, receipts, touched, found.value, answer, Now());
        Ended(start, q, Now());
        if answer.Err? { return Err(Failed(answer.error)), touched, q; }
        receipts := receipts + [answer.value];
        touched := touched + [hold];
      }
      SoFar(book, inflight, legs, confirms, q, receipts, touched);
      Ended(start, q, Now());
      return Ok(receipts), touched, q;
    }

    static lemma RequestRefused(legs: seq<Leg>, confirms: seq<Movement>, p: Path, st: Settlement, error: LedgerError, s: State)
      requires AllOk(p.ops) && |p.states| == |p.ops| + 1
      ensures ConfirmStops(legs, confirms, Extend(p, Settling(st, Err(error)), s), Failed(error))
    {
      BrokenOff(p, st, error, s);
      hide BrokeOff, AllOk, RequestStops, ClosingStops;
    }

    static predicate OfHandle(error: InflightError) { error.InflightNotFound? || error.NotInflightTransaction? }

    static lemma FoundProper(book: BookId, inflight: EnvelopeId, legs: seq<Leg>, m: Movement, l: Leg)
      requires exists i: nat :: FirstMatch(legs, m, i) && legs[i] == l
      ensures Proper(inflight, legs, Confirming, Settlement(book, inflight, l.hold, m.to, m.to, m.asset, m.amount, Confirming))
      ensures IsHold(legs, l.hold)
    {
    }

    static lemma FoundSettled(book: BookId, inflight: EnvelopeId, legs: seq<Leg>, m: Movement, l: Leg, answer: Answer)
      requires exists i: nat :: FirstMatch(legs, m, i) && legs[i] == l
      ensures SettledAs(book, inflight, legs, m, Settling(Settlement(book, inflight, l.hold, m.to, m.to, m.asset, m.amount, Confirming), answer))
    {
      hide FirstMatch;
    }

    /** Why request `k` was not put to the store. */
    lemma RequestFails(legs: seq<Leg>, confirms: seq<Movement>, start: State, q: Path, s: State, error: InflightError)
      requires Along(start, q, s) && AllOk(q.ops) && |q.ops| < |confirms| && RequestStops(s, legs, confirms[|q.ops|], error)
      ensures |q.states| == |q.ops| + 1 && ConfirmStops(legs, confirms, q, error) && !OfHandle(error)
    {
      hide Inv, Grows, Performs, FirstMatch, HeldIn;
    }

    /** The first leg with the movement's funder, destination and asset. */
    static method FindLeg(legs: seq<Leg>, m: Movement) returns (r: Option<Leg>)
      ensures r.Some? ==> exists i: nat :: FirstMatch(legs, m, i) && legs[i] == r.value
      ensures r.None? ==> forall i :: 0 <= i < |legs| ==> !Matches(legs[i], m)
    {
      for i := 0 to |legs|
        invariant forall j :: 0 <= j < i ==> !Matches(legs[j], m)
      {
        if legs[i].funder == m.from && legs[i].destination == m.to && legs[i].asset == m.asset {
          assert FirstMatch(legs, m, i);
          return Some(legs[i]);
        }
      }
      return None;
    }

    // ----- void -----

    /** The payouts of one hold and asset, one settlement each. */
    method PayFunders(
        book: BookId, inflight: EnvelopeId, legs: seq<Leg>, n: nat, k: nat, payouts: seq<Payout>, ghost at: seq<nat>, clock: nat -> i64,
        ghost start: State, ghost p: Path, ghost done: set<Key>, ghost total: Cent)
        returns (r: Result<seq<Receipt>, InflightError>, ghost q: Path)
      requires n < |GroupHolds(legs)| && k < |GroupHolds(legs)[n].assets| && HoldKeys(legs, done)
      requires total == HeldIn(Now(), Key(GroupHolds(legs)[n].hold, GroupHolds(legs)[n].assets[k]))
      requires Distributes(LegsOf(legs, GroupHolds(legs)[n].hold, GroupHolds(legs)[n].assets[k]), total, payouts, at)
      requires Going(book, legs, Voiding, p)
      requires Along(start, p, Now()) && OnlySettles(inflight, legs, Voiding, p.ops)
      requires PayingOut(Now(), start, legs, p, done, Key(GroupHolds(legs)[n].hold, GroupHolds(legs)[n].assets[k]), total)
      modifies ledger.store
      ensures Along(start, q, Now()) && OnlySettles(inflight, legs, Voiding, q.ops)
      ensures r.Ok? ==> PayingOut(Now(), start, legs, q, done, Key(GroupHolds(legs)[n].hold, GroupHolds(legs)[n].assets[k]), total - SumPayouts(payouts))
      ensures Sweeps(book, legs, Voiding, q, ReceiptsOf(p.ops), r) && KeepsTidy(old(Now()), Now(), GroupHolds(legs)[n].hold)
    {
      hide Inv, Grows, Along, PayingOut, OnlySettles, Proper, AllNew, SettleEffect, Serves, SumPayouts, HoldKeys, LegsOf, GroupHolds;
      hide EarlierFirst, HeldIn, Going, Sweeps, KeepsTidy, PaysFrom;
      q := p;
      KeepsTidyRefl(Now(), GroupHolds(legs)[n].hold);
      NothingPaid(start, p, Now(), GroupHolds(legs)[n].hold, GroupHolds(legs)[n].assets[k], payouts);
      var g := GroupHolds(legs)[n];
      ghost var key := Key(g.hold, g.assets[k]);
      NoPayouts([]);
      var receipts: seq<Receipt> := [];
      assert payouts[..0] == [];
      for j := 0 to |payouts|
        invariant Along(start, q, Now()) && OnlySettles(inflight, legs, Voiding, q.ops)
        invariant PayingOut(Now(), start, legs, q, done, key, total - SumPayouts(payouts[..j]))
        invariant Going(book, legs, Voiding, q) && ReceiptsOf(q.ops) == ReceiptsOf(p.ops) + receipts && KeepsTidy(old(Now()), Now(), g.hold)
        invariant PaidSoFar(p, q, old(Now()), j, g.hold, g.assets[k], payouts)
      {
        var st := Settlement(book, inflight, g.hold, payouts[j].funder, g.destination, g.assets[k], payouts[j].give, Voiding);
        PayoutProper(inflight, legs, book, n, k, payouts, at, j);
        ghost var s, path := Now(), q;
        var answer;
        answer, q := Settle(st, legs, clock(j), start, q);
        SharedOne(book, legs, start, path, s, st, answer, Now(), |p.ops|, total, payouts, at);
        TidyAfter(old(Now()), s, Now(), g.hold);
        Onward(book, legs, Voiding, q, path.ops, OneReceipt(answer), p.ops, receipts);
        if answer.Err? { return Err(Failed(answer.error)), q; }
        receipts := receipts + [answer.value];
        assert payouts[..j + 1] == payouts[..j] + [payouts[j]];
        SumPayoutsPush(payouts[..j], payouts[j]);
        PositiveVoid(inflight, legs, st);
        PaidOut(s, Now(), start, legs, path, q, done, st, payouts, at, j, total);
      }
      assert payouts[..|payouts|] == payouts;
      Done(book, legs, Voiding, q, ReceiptsOf(p.ops), receipts);
      return Ok(receipts), q;
    }

    /** The path since `p` paid out the first `j` shares. */
    static ghost predicate PaidSoFar(p: Path, q: Path, s: State, j: nat, h: AccountId, x: AssetId, ps: seq<Payout>) {
      && |q.ops| == |p.ops| + j && |q.states| == |q.ops| + 1 && q.states[|p.ops|] == s
      && PaysFrom(q.ops, |p.ops|, j, h, x, ps)
    }

    lemma NothingPaid(start: State, p: Path, s: State, h: AccountId, x: AssetId, ps: seq<Payout>)
      requires Along(start, p, s)
      ensures PaidSoFar(p, p, s, 0, h, x, ps)
    {
      hide Inv, Grows, Performs;
    }

    /** One share paid. */
    lemma SharedOne(
        book: BookId, legs: seq<Leg>, start: State, p: Path, s: State, st: Settlement, answer: Answer, s': State,
        b: nat, balance: Cent, ps: seq<Payout>, at: seq<nat>)
      requires Going(book, legs, Voiding, p) && st.book == book && b <= |p.ops| < b + |ps|
      requires PaysFrom(p.ops, b, |p.ops| - b, st.hold, st.asset, ps)
      requires balance == HeldIn(p.states[b], Key(st.hold, st.asset)) && Distributes(LegsOf(legs, st.hold, st.asset), balance, ps, at)
      requires st.target == ps[|p.ops| - b].funder && st.amount == ps[|p.ops| - b].give
      ensures var q := Extend(p, Settling(st, answer), s');
        && Sweeps(book, legs, Voiding, q, ReceiptsOf(p.ops), OneReceipt(answer))
        && PaysFrom(q.ops, b, |q.ops| - b, st.hold, st.asset, ps) && |q.states| == |q.ops| + 1 && q.states[b] == p.states[b]
    {
      hide HeldIn, PaysFrom, Distributes, LegsOf;
      VoidedPush(book, legs, p, st, answer, s', b, balance, ps, at);
      ReceiptsPush(p.ops, Settling(st, answer));
      if answer.Err? { BrokenOff(p, st, answer.error, s'); }
      hide AllShared, Paying;
    }

    static lemma PositiveVoid(inflight: EnvelopeId, legs: seq<Leg>, st: Settlement)
      requires Proper(inflight, legs, Voiding, st)
      ensures st.amount > 0
    {
    }

    /** One hold and asset: its whole positive balance goes back to its funders. */
    method VoidAsset(book: BookId, inflight: EnvelopeId, legs: seq<Leg>, n: nat, k: nat, clock: nat -> i64, ghost start: State, ghost p: Path, ghost done: set<Key>)
        returns (r: Result<seq<Receipt>, InflightError>, ghost q: Path)
      requires n < |GroupHolds(legs)| && k < |GroupHolds(legs)[n].assets|
      requires Along(start, p, Now()) && OnlySettles(inflight, legs, Voiding, p.ops) && SweptSoFar(Now(), start, legs, p, done)
      requires Going(book, legs, Voiding, p)
      modifies ledger.store
      ensures Along(start, q, Now()) && OnlySettles(inflight, legs, Voiding, q.ops)
      ensures r.Ok? ==> SweptSoFar(Now(), start, legs, q, done + {Key(GroupHolds(legs)[n].hold, GroupHolds(legs)[n].assets[k])})
      ensures Sweeps(book, legs, Voiding, q, ReceiptsOf(p.ops), r) && KeepsTidy(old(Now()), Now(), GroupHolds(legs)[n].hold)
    {
      hide Inv, Grows, IsPath, OnlySettles, AllNew, LiveSum, Serves, SumPayouts, HoldKeys, LegsOf, GroupHolds, EarlierFirst, Going, Sweeps, KeepsTidy, HeldIn;
      hide SweptSoFar, PayingOut, Along;
      q := p;
      KeepsTidyRefl(Now(), GroupHolds(legs)[n].hold);
      var g := GroupHolds(legs)[n];
      var x := g.assets[k];
      ghost var key := Key(g.hold, x);
      StartsPaying(Now(), start, legs, p, done, key);
      GroupKey(legs, n, done, x);
      var remaining := Balance(g.hold, x);
      if remaining.Err? {
        SumFails(book, legs, Voiding, start, p, Now(), n, k);
        return Err(remaining.error), q;
      }
      var payouts, at := DistributeToFunders(legs, g.hold, x, remaining.value);
      GroupFunded(legs, n, k);
      NoPayouts([]);
      r, q := PayFunders(book, inflight, legs, n, k, payouts, at, clock, start, q, done, remaining.value);
      if r.Ok? {
        GroupHold(legs, n);
        VoidedHere(start, Now(), legs, q, done, key, remaining.value - SumPayouts(payouts));
      }
    }

    static lemma StartsPaying(s: State, start: State, legs: seq<Leg>, p: Path, done: set<Key>, key: Key)
      requires SweptSoFar(s, start, legs, p, done)
      ensures PayingOut(s, start, legs, p, done, key, HeldIn(s, key)) && HoldKeys(legs, done)
    {
      hide HeldIn, Sweeping, HoldKeys;
    }

    lemma VoidedHere(start: State, s: State, legs: seq<Leg>, q: Path, done: set<Key>, key: Key, left: int)
      requires Along(start, q, s) && IsHold(legs, key.account) && HoldKeys(legs, done + {key})
      requires PayingOut(s, start, legs, q, done, key, left) && left <= 0
      ensures SweptSoFar(s, start, legs, q, done + {key})
    {
      hide Inv, Grows, IsPath, PayingOut, SweptSoFar, HoldKeys, IsHold;
      KeyVoided(start, s, legs, q, done, key, left);
    }

    /** The legs of a group's own asset are its funders. */
    static lemma GroupFunded(legs: seq<Leg>, n: nat, k: nat)
      requires n < |GroupHolds(legs)| && k < |GroupHolds(legs)[n].assets|
      ensures LegsOf(legs, GroupHolds(legs)[n].hold, GroupHolds(legs)[n].assets[k]) != []
    {
      var g := GroupHolds(legs)[n];
      assert g.assets[k] in AssetsFrom(legs, g.hold);
      var i :| 0 <= i < |legs| && legs[i].hold == g.hold && legs[i].asset == g.assets[k];
      FundedBy(legs, i);
    }

    static lemma {:induction false} FundedBy(legs: seq<Leg>, i: nat)
      requires i < |legs|
      ensures LegsOf(legs, legs[i].hold, legs[i].asset) != []
    {
      if i < |legs| - 1 {
        FundedBy(legs[..|legs| - 1], i);
      }
    }

    /** One group: all its assets, then the hold is closed if that drained it. */
    method VoidGroup(book: BookId, inflight: EnvelopeId, legs: seq<Leg>, n: nat, clock: nat -> i64, ghost start: State, ghost p: Path, ghost keys: set<Key>)
        returns (r: Result<seq<Receipt>, InflightError>, ghost q: Path, ghost done: set<Key>)
      requires n < |GroupHolds(legs)|
      requires Along(start, p, Now()) && OnlySettles(inflight, legs, Voiding, p.ops) && SweptSoFar(Now(), start, legs, p, keys)
      requires Going(book, legs, Voiding, p)
      modifies ledger.store
      ensures Along(start, q, Now()) && OnlySettles(inflight, legs, Voiding, q.ops)
      ensures r.Ok? ==> SweptSoFar(Now(), start, legs, q, done) && keys <= done
      ensures r.Ok? ==> GroupDone(legs, n, done)
      ensures Sweeps(book, legs, Voiding, q, ReceiptsOf(p.ops), r) && KeepsTidy(old(Now()), Now(), GroupHolds(legs)[n].hold)
      ensures r.Ok? ==> Tidy(Now(), GroupHolds(legs)[n].hold)
    {
      hide Inv, Grows, Along, OnlySettles, SweptSoFar, GroupHolds, AllNew, Going, Sweeps, KeepsTidy, Tidy, CannotClose;
      q, done := p, keys;
      KeepsTidyRefl(Now(), GroupHolds(legs)[n].hold);
      var g := GroupHolds(legs)[n];
      var receipts: seq<Receipt> := [];
      for k := 0 to |g.assets|
        invariant Along(start, q, Now()) && OnlySettles(inflight, legs, Voiding, q.ops) && SweptSoFar(Now(), start, legs, q, done) && keys <= done
        invariant forall i :: 0 <= i < k ==> Key(g.hold, g.assets[i]) in done
        invariant Going(book, legs, Voiding, q) && ReceiptsOf(q.ops) == ReceiptsOf(p.ops) + receipts && KeepsTidy(old(Now()), Now(), g.hold)
      {
        ghost var mid, sofar := Now(), q.ops;
        var step;
        step, q := VoidAsset(book, inflight, legs, n, k, i => clock(|receipts| + i), start, q, done);
        Onward(book, legs, Voiding, q, sofar, step, p.ops, receipts);
        TidyAfter(old(Now()), mid, Now(), g.hold);
        if step.Err? { return Err(step.error), q, done; }
        receipts := receipts + step.value;
        done := done + {Key(g.hold, g.assets[k])};
      }
      ghost var before, path := Now(), q;
      GroupHold(legs, n);
      var closed;
      closed, q := CloseIfDrained(g.hold, clock(|receipts|), inflight, legs, Voiding, start, q);
      TidyThrough(old(Now()), before, Now(), g.hold);
      KeptGoing(book, legs, Voiding, path, q, Now());
      if closed.Some? {
        CloseFails(book, legs, Voiding, start, q, Now(), g.hold, closed.value, ReceiptsOf(p.ops));
        return Err(closed.value), q, done;
      }
      Done(book, legs, Voiding, q, ReceiptsOf(p.ops), receipts);
      SweptAfterClose(before, Now(), start, legs, path, q, done);
      return Ok(receipts), q, done;
    }

    /** All groups in turn. */
    method VoidGroups(book: BookId, inflight: EnvelopeId, legs: seq<Leg>, clock: nat -> i64, ghost start: State, ghost p: Path)
        returns (r: Result<seq<Receipt>, InflightError>, ghost q: Path)
      requires Along(start, p, Now()) && OnlySettles(inflight, legs, Voiding, p.ops) && Going(book, legs, Voiding, p)
      modifies ledger.store
      ensures Along(start, q, Now()) && OnlySettles(inflight, legs, Voiding, q.ops)
      ensures r.Ok? && Sweeping(start, legs, q) ==> Swept(Now(), legs)
      ensures Sweeps(book, legs, Voiding, q, ReceiptsOf(p.ops), r) && (r.Ok? ==> AllTidy(Now(), legs))
    {
      hide Inv, Grows, Along, OnlySettles, SweptSoFar, Sweeping, Swept, GroupHolds, Going, Sweeps, KeepsTidy, Tidy, AllTidy, TidyGroups, ReceiptsOf, AllNew, KeysOf, GroupDone;
      NoneTidied(Now(), legs);
      q := p;
      var groups := GroupHolds(legs);
      ghost var done: set<Key> := {};
      NoKeysYet(Now(), start, legs, q);
      var receipts: seq<Receipt> := [];
      for n := 0 to |groups|
        invariant Along(start, q, Now()) && OnlySettles(inflight, legs, Voiding, q.ops) && SweptSoFar(Now(), start, legs, q, done)
        invariant KeysOf(legs, n, done)
        invariant Going(book, legs, Voiding, q) && ReceiptsOf(q.ops) == ReceiptsOf(p.ops) + receipts && TidyGroups(Now(), legs, n)
      {
        ghost var mid, sofar, before := Now(), q.ops, done;
        var step;
        step, q, done := VoidGroup(book, inflight, legs, n, i => clock(|receipts| + i), start, q, done);
        Onward(book, legs, Voiding, q, sofar, step, p.ops, receipts);
        if step.Ok? {
          GroupTidied(mid, Now(), legs, n);
          KeysPush(legs, n, before, done);
        }
        if step.Err? { return Err(step.error), q; }
        receipts := receipts + step.value;
      }
      if Sweeping(start, legs, q) { SweptHere(Now(), start, legs, q, done); }
      Done(book, legs, Voiding, q, ReceiptsOf(p.ops), receipts);
      GroupsTidied(Now(), legs);
      return Ok(receipts), q;
    }

    /** Returns every hold's balance to its funders.  When nothing was answered from the
        log, success means that every hold is empty. */
    method VoidAll(inflight: EnvelopeId, clock: nat -> i64) returns (r: Result<seq<Receipt>, InflightError>, ghost q: Path)
      requires Inv(Now())
      modifies ledger.store
      ensures Sweep(old(Now()), inflight, Voiding, r, q)
    {
      hide Inv, Grows, Along, OnlySettles, Sweeping, Swept, Sweeps, Going, AllTidy;
      ghost var start := Now();
      q := Path([start], []);
      StartsPath(start);
      NothingYet(inflight, LegsIn(codec, start, inflight));
      var loaded := LoadInflight(inflight);
      if loaded.Err? { return Err(loaded.error), q; }
      NotBegun(loaded.value.0, loaded.value.1, Voiding, start);
      r, q := VoidGroups(loaded.value.0, inflight, loaded.value.1, clock, start, q);
      SweepErrors(loaded.value.0, loaded.value.1, Voiding, q, [], r);
    }

    // ----- authorize -----

    /** Registers one hold. */
    method OpenHold(account: Account, ts: i64, ghost start: State, ghost p: Path) returns (r: Option<InflightError>, ghost q: Path)
      requires Along(start, p, Now()) && AllKeeping(p.ops)
      modifies ledger.store
      ensures Along(start, q, Now()) && AllKeeping(q.ops)
      ensures r.None? ==> OnlyAdds(old(Now()), account, Now())
      ensures r.None? ==> q.ops == p.ops + [Keeping(DoCreateAccount(account)), Keeping(DoAppendCreated(account.id, ts))]
      ensures r.Some? ==> r == Some(AlreadyOpen(account.id)) && account.id in Now().accounts && Now() == old(Now()) && q == p
    {
      hide Inv, Grows, Along;
      ghost var s := Now();
      q := p;
      var failed := ledger.CreateAccount(account, ts);
      if failed.Some? { return Some(AlreadyOpen(account.id)), q; }
      ghost var mid := CreateAccount(s, account).0;
      CreateSteps(ledger.digest, codec, s, account, ts);
      Extends(start, p, s, Keeping(DoCreateAccount(account)), mid);
      q := Extend(p, Keeping(DoCreateAccount(account)), mid);
      Extends(start, q, mid, Keeping(DoAppendCreated(account.id, ts)), Now());
      q := Extend(q, Keeping(DoAppendCreated(account.id, ts)), Now());
      return None, q;
    }

    lemma InvHere(start: State, p: Path, s: State)
      requires Along(start, p, s)
      ensures Inv(s)
    {
    }

    static lemma CreateSteps(digest: Digest, codec: Codec, s: State, account: Account, ts: i64)
      ensures var mid := CreateAccount(s, account).0;
        && Performs(digest, codec, s, Keeping(DoCreateAccount(account)), mid)
        && Performs(digest, codec, mid, Keeping(DoAppendCreated(account.id, ts)), AppendEvent(mid, LedgerEvent(ts, AccountCreated(account.id))))
    {
      hide CreateAccount, AppendEvent;
    }

    /** One hold per destination, in order, until one is taken. */
    method OpenHolds(destinations: seq<AccountId>, sub: i64, ghost trade: Transfer, book: BookId, clock: nat -> i64, ghost start: State, ghost p: Path)
        returns (r: Option<InflightError>, ghost q: Path)
      requires Along(start, p, Now()) && p.ops == [] && Now() == start
      requires book == trade.book
      requires forall d :: d in destinations <==> PayeeOf(trade.movements, d)
      requires Distinct(destinations)
      modifies ledger.store
      ensures Along(start, q, Now()) && AllKeeping(q.ops) && AllOpening(codec, sub, trade, q.ops)
      ensures r.None? ==> OpenUpTo(codec, sub, book, destinations, |destinations|, start, Now())
      ensures r.Some? ==> HoldTaken(start, sub, trade.movements) && r.value.AlreadyOpen?
      ensures r.Some? ==> r.value.hold in Now().accounts && exists d :: PayeeOf(trade.movements, d) && r.value.hold == HoldOf(sub, d)
    {
      hide Inv, Grows, Along, OpenUpTo, AllOpening, PayeeOf, HoldTaken, NewlyOpened, OnlyAdds, HoldOf, AllKeeping;
      q := p;
      NoneOpen(sub, trade, book, destinations, start);
      for n := 0 to |destinations|
        invariant Along(start, q, Now()) && AllKeeping(q.ops) && AllOpening(codec, sub, trade, q.ops)
        invariant OpenUpTo(codec, sub, book, destinations, n, start, Now())
      {
        ghost var s, ops := Now(), q.ops;
        var d := destinations[n];
        assert d in destinations;
        var account := HoldAccount(codec, HoldOf(sub, d), d, book);
        HoldAsAsked(sub, book, d);
        var failed;
        failed, q := OpenHold(account, clock(n), start, q);
        if failed.Some? {
          OpenBlocked(codec, sub, book, destinations, n, start, s, trade.movements);
          return failed, q;
        }
        OpenedOne(sub, trade, d, account, clock(n), ops);
        OneMoreOpen(codec, sub, book, destinations, n, start, s, account, Now());
      }
      return None, q;
    }

    lemma HoldAsAsked(sub: i64, book: BookId, d: AccountId)
      ensures NewlyOpened(codec, sub, book, d, HoldAccount(codec, HoldOf(sub, d), d, book)) && HoldAccount(codec, HoldOf(sub, d), d, book).id == HoldOf(sub, d)
    {
    }

    lemma NoneOpen(sub: i64, trade: Transfer, book: BookId, ds: seq<AccountId>, start: State)
      ensures OpenUpTo(codec, sub, book, ds, 0, start, start) && AllOpening(codec, sub, trade, []) && AllKeeping([])
    {
    }

    lemma OpenedOne(sub: i64, trade: Transfer, d: AccountId, account: Account, ts: i64, ops: seq<Op>)
      requires AllOpening(codec, sub, trade, ops) && PayeeOf(trade.movements, d) && NewlyOpened(codec, sub, trade.book, d, account)
      ensures AllOpening(codec, sub, trade, ops + [Keeping(DoCreateAccount(account)), Keeping(DoAppendCreated(account.id, ts))])
    {
      hide PayeeOf, NewlyOpened;
      assert account.id == HoldOf(sub, d) by { IdOf(sub, trade.book, d, account); }
    }

    lemma IdOf(sub: i64, book: BookId, d: AccountId, account: Account)
      requires NewlyOpened(codec, sub, book, d, account)
      ensures account.id == HoldOf(sub, d)
    {
    }

    /** The rewritten trade, committed. */
    method CommitTrade(trade: Transfer, sub: i64, ts: i64, ghost start: State, ghost p: Path) returns (r: Answer, ghost q: Path)
      requires Along(start, p, Now()) && Small(trade)
      modifies ledger.store
      ensures Along(start, q, Now()) && Now().accounts == old(Now().accounts) && q == Extend(p, Authorizing(sub, trade, r), Now())
    {
      hide Inv, Grows, Along, CommitsTransfer;
      ghost var s := Now();
      InvHere(start, p, s);
      ledger.RowsKeyed();
      r := ledger.Commit(Rewritten(codec, sub, trade), ts);
      ghost var op := Authorizing(sub, trade, r);
      assert Performs(ledger.digest, codec, s, op, Now());
      CommitKeepsAccounts(ledger.digest, codec, s, sub, trade, r, Now());
      Extends(start, p, s, op, Now());
      q := Extend(p, op, Now());
    }

    /** Parks a trade in per-destination holds; `sub` is the subaccount derived from it.
        Success means its authorization was committed last, over holds that are new and all
        forbid overdraft. */
    method AuthorizeTrade(trade: Transfer, sub: i64, clock: nat -> i64) returns (r: Result<(Receipt, seq<Leg>), InflightError>, ghost q: Path)
      requires Inv(Now()) && Small(trade)
      modifies ledger.store
      ensures Along(old(Now()), q, Now())
      ensures r.Ok? ==> Parks(trade, sub, q, r.value.0, r.value.1)
      ensures AuthorizeAnswers(codec, old(Now()), trade, sub, q, Now(), r)
    {
      hide Inv, Grows, Along, Rewritten, HoldOf, Forbids, Opens, OpenUpTo, NewlyOpened, HoldTaken, PayeeOf;
      ghost var start := Now();
      q := Path([start], []);
      StartsPath(start);
      var walk: seq<AccountId> := [];
      for i := 0 to |trade.movements|
        invariant |walk| == i && forall j :: 0 <= j < i ==> trade.movements[j].from != trade.movements[j].to && walk[j] == trade.movements[j].to
      {
        if trade.movements[i].from == trade.movements[i].to { return Err(SelfMovement(trade.movements[i].from)), q; }
        walk := walk + [trade.movements[i].to];
      }
      var destinations := SortDedup(Validate.AccountLess, walk);
      Payees(trade.movements, walk);
      var failed;
      failed, q := OpenHolds(destinations, sub, trade, trade.book, clock, start, q);
      if failed.Some? { return Err(failed.value), q; }
      ghost var path, s := q, Now();
      AllOpened(codec, sub, trade.book, destinations, start, s, trade.movements);
      var answer;
      answer, q := CommitTrade(trade, sub, clock(|destinations|), start, q);
      assert q.ops[..|q.ops| - 1] == path.ops;
      if answer.Err? { return Err(Failed(answer.error)), q; }
      ParkedAs(trade, sub, start, path, q, answer.value, s, Now());
      return Ok((answer.value, LegTable(sub, trade))), q;
    }

    /** The payees, each once. */
    static lemma Payees(ms: seq<Movement>, walk: seq<AccountId>)
      requires |walk| == |ms| && forall i :: 0 <= i < |ms| ==> walk[i] == ms[i].to
      ensures var ds := SortDedup(Validate.AccountLess, walk);
        Distinct(ds) && forall d :: d in ds <==> PayeeOf(ms, d)
    {
      Ordered();
      SortDedupAscending(Validate.AccountLess, walk);
    }

    lemma ParkedAs(trade: Transfer, sub: i64, start: State, p: Path, q: Path, receipt: Receipt, m: State, s: State)
      requires Along(start, q, s) && AllKeeping(p.ops) && q == Extend(p, Authorizing(sub, trade, Ok(receipt)), s) && s.accounts == m.accounts
      requires !PaysItself(trade.movements)
      requires forall i :: 0 <= i < |trade.movements| ==> HoldOf(sub, trade.movements[i].to) !in start.accounts
      requires forall i :: 0 <= i < |trade.movements| ==>
        var h := HoldOf(sub, trade.movements[i].to);
        Head(m, h).Some? && NewlyOpened(codec, sub, trade.book, trade.movements[i].to, Head(m, h).value)
      ensures Parks(trade, sub, q, receipt, LegTable(sub, trade))
      ensures var legs := LegTable(sub, trade); forall i :: 0 <= i < |legs| ==> HoldOpened(codec, sub, trade.book, s, legs[i])
    {
      hide Inv, Grows, Performs;
      forall i | 0 <= i < |trade.movements| ensures Forbids(s, HoldOf(sub, trade.movements[i].to)) {
        assert Head(s, HoldOf(sub, trade.movements[i].to)) == Head(m, HoldOf(sub, trade.movements[i].to));
      }
    }
  }
}

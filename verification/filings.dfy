/** What the ledger's operations file and refuse, field by field (crates/kuatia/src/ledger/commit.rs). */
module Filings {
  import opened Wrappers
  import opened Domain
  import opened Events
  import opened Store
  import opened Sorting
  import opened Canonical
  import opened Validate
  import opened Runs
  import opened RunProofs
  import opened Resolution
  import opened LedgerOps
  import opened Intents
  import opened LedgerTheorems

  // ----- what is filed -----

  /** The log holds `p` under `t`, filed at `ts`, and says so. */
  ghost predicate FiledAs(s: State, p: Envelope, t: EnvelopeId, ts: i64) {
    && t in s.transfers && s.transfers[t] == EnvelopeRecord(p, Receipt(t), ts)
    && LedgerEvent(ts, TransferCommitted(t)) in s.events
  }

  /** `p` is `e`, and unless `e` came with snapshots of its own it is pinned to the current
      version of each account it creates postings for, each once, in order of account. */
  ghost predicate PinnedTo(digest: Digest, s: State, e: Envelope, p: Envelope) {
    && p == e.(snapshots := p.snapshots)
    && if e.snapshots != [] then p == e
       else
         && (forall i :: 0 <= i < |p.snapshots| ==> PinsHead(digest, s, p.snapshots[i]))
         && (forall i, j :: 0 <= i < j < |p.snapshots| ==> Before(p.snapshots[i].account, p.snapshots[j].account))
         && (forall a :: Pins(p, a) <==> CreatesFor(e, a))
  }

  predicate Pins(p: Envelope, a: AccountId) { exists i :: 0 <= i < |p.snapshots| && p.snapshots[i].account == a }

  predicate CreatesFor(e: Envelope, a: AccountId) { exists i :: 0 <= i < |e.creates| && e.creates[i].owner == a }

  predicate PinsHead(digest: Digest, s: State, snap: AccountSnapshotId) {
    Head(s, snap.account).Some? && snap.snapshotId == digest(AccountBytes(Head(s, snap.account).value))
  }

  predicate Before(a: AccountId, b: AccountId) { a.id < b.id || (a.id == b.id && a.sub < b.sub) }

  lemma CommitFiles(digest: Digest, s: State, p: Envelope, ts: i64, s': State, r: Receipt)
    requires Inv(s) && CommitsPinned(digest, s, p, ts, s', Ok(r)) && r.transferId !in s.transfers
    ensures r.transferId == digest(EnvelopeBytes(p)) && FiledAs(s', p, r.transferId, ts)
  {
    var tid := EnvelopeIdOf(digest, p);
    assert tid !in s.transfers by { if tid in s.transfers { StoredReceipt(s, tid); } }
    hide EnvelopeBytes, LoadMayFail, Refused, LoadedNow, Acceptable, Inv;
    var l, out :| Submitted(digest, s, p, l, ts, s', out) && Ok(r) == AnswerOf(out);
    RequestFiles(digest, s, p, l, ts, s', out, r);
  }

  lemma RequestFiles(digest: Digest, s: State, p: Envelope, l: Loaded, ts: i64, s': State, out: CommitResult, r: Receipt)
    requires Inv(s) && EnvelopeIdOf(digest, p) !in s.transfers
    requires Commits(s, RequestOf(digest, p, l, ts), s', out) && Ok(r) == AnswerOf(out)
    ensures r.transferId == digest(EnvelopeBytes(p)) && FiledAs(s', p, r.transferId, ts)
  {
    hide Inv, EnvelopeBytes, Commits, Applied, Append, Mentions, AnswerOf, Owners;
    var req := RequestOf(digest, p, l, ts);
    StoreAnswers(s, req, s', out);
    AppliedSays(s, req);
    Unannounced(s, req.transferId);
    AppendBySubject(s.events, LedgerEvent(ts, TransferCommitted(req.transferId)));
    assert s'.events == s.events + [LedgerEvent(ts, TransferCommitted(req.transferId))];
  }

  lemma AppliedSays(s: State, req: CommitRequest)
    ensures var s' := Applied(s, req); s'.events == Append(s.events, req.event) && req.transferId in s'.transfers && s'.transfers[req.transferId] == req.record
  {
    hide Append;
  }

  lemma Unannounced(s: State, t: EnvelopeId)
    requires Inv(s) && t !in s.transfers
    ensures !Mentions(s.events, OfTransfer(t))
  {
    assert EventsOk(s);
  }

  lemma PinsAsAsked(digest: Digest, s: State, e: Envelope)
    requires WithSnapshots(digest, s, e).Some?
    ensures PinnedTo(digest, s, e, WithSnapshots(digest, s, e).value)
  {
    if e.snapshots == [] {
      var owners := CreateOwners(e);
      OwnersInOrder(e);
      var p := WithSnapshots(digest, s, e).value;
      hide CreateOwners, AccountBytes;
      assert |p.snapshots| == |owners| && forall i :: 0 <= i < |owners| ==> p.snapshots[i].account == owners[i];
      forall a ensures Pins(p, a) <==> CreatesFor(e, a) {
        if i :| 0 <= i < |owners| && owners[i] == a { assert owners[i] in owners; }
        if a in owners {
          var i :| 0 <= i < |owners| && owners[i] == a;
          assert p.snapshots[i].account == a;
        }
      }
    }
  }

  lemma OwnersInOrder(e: Envelope)
    ensures var owners := CreateOwners(e);
      && (forall i, j :: 0 <= i < j < |owners| ==> Before(owners[i], owners[j]))
      && (forall a :: a in owners <==> CreatesFor(e, a))
  {
    var walk := seq(|e.creates|, i requires 0 <= i < |e.creates| => e.creates[i].owner);
    SortDedupAscending(AccountLess, walk);
    assert forall i :: 0 <= i < |e.creates| ==> walk[i] == e.creates[i].owner;
  }

  /** A commit that was not answered from the log files the envelope it was given, pinned. */
  ghost predicate NewlyFiled(digest: Digest, s: State, e: Envelope, ts: i64, s': State, t: EnvelopeId) {
    && t in s'.transfers
    && var p := s'.transfers[t].envelope;
      PinnedTo(digest, s, e, p) && t == digest(EnvelopeBytes(p)) && FiledAs(s', p, t, ts)
  }

  lemma EnvelopeFiles(digest: Digest, s: State, e: Envelope, ts: i64, s': State, r: Receipt)
    requires Inv(s) && CommitsEnvelope(digest, s, e, ts, s', Ok(r)) && r.transferId !in s.transfers
    ensures NewlyFiled(digest, s, e, ts, s', r.transferId)
  {
    hide Inv, CommitsPinned, WithSnapshots, PinnedTo, EnvelopeBytes;
    var p := WithSnapshots(digest, s, e).value;
    PinsAsAsked(digest, s, e);
    CommitFiles(digest, s, p, ts, s', r);
  }

  /** A new reversal of `t`: its book and metadata, its created postings by position, and the
      rows it consumed given back in order, to nobody's account in particular. */
  ghost predicate ReversalFiled(digest: Digest, s: State, t: EnvelopeId, ts: i64, s': State, u: EnvelopeId) {
    && t in s.transfers && u in s'.transfers
    && var o, n := s.transfers[t].envelope, s'.transfers[u].envelope;
      && n.book == o.book && n.metadata == o.metadata
      && |n.consumes| == |o.creates| && (forall i :: 0 <= i < |o.creates| ==> n.consumes[i] == PostingId(t, i % 0x1_0000))
      && |n.creates| == |o.consumes|
      && (forall i :: 0 <= i < |o.consumes| ==> GivesBack(s, o.consumes[i], n.creates[i]))
      && PinnedTo(digest, s, n.(snapshots := []), n)
      && u == digest(EnvelopeBytes(n)) && FiledAs(s', n, u, ts)
  }

  predicate GivesBack(s: State, id: PostingId, np: NewPosting) {
    && id in s.immutable && np.payer.None?
    && np.owner == s.immutable[id].owner && np.asset == s.immutable[id].asset && np.value == s.immutable[id].value
  }

  lemma ReversalFiles(digest: Digest, s: State, t: EnvelopeId, ts: i64, s': State, r: Receipt)
    requires Inv(s) && Reverses(digest, s, t, ts, s', Ok(r)) && r.transferId !in s.transfers
    ensures ReversalFiled(digest, s, t, ts, s', r.transferId)
  {
    hide Inv, CommitsEnvelope, PinnedTo, EnvelopeBytes;
    StoredReceipt(s, t);
    var e := ReversalOf(s, t).value;
    EnvelopeFiles(digest, s, e, ts, s', r);
    SameButPins(digest, s, e, s'.transfers[r.transferId].envelope);
  }

  lemma SameButPins(digest: Digest, s: State, e: Envelope, p: Envelope)
    requires PinnedTo(digest, s, e, p)
    ensures p == e.(snapshots := p.snapshots)
  {
  }

  /** A new intent: its book and metadata, one credit per movement before anything else, and
      the change after them, which nobody pays. */
  ghost predicate IntentFiled(digest: Digest, t: Transfer, ts: i64, s': State, u: EnvelopeId) {
    && u in s'.transfers
    && var n := s'.transfers[u].envelope;
      && n.book == t.book && n.metadata == t.metadata && |t.movements| <= |n.creates|
      && (forall i :: 0 <= i < |t.movements| ==> Pays(t.movements[i], n.creates[i]))
      && (forall i :: |t.movements| <= i < |n.creates| ==> n.creates[i].payer.None?)
      && u == digest(EnvelopeBytes(n)) && FiledAs(s', n, u, ts)
  }

  /** The credit of a movement, annotated with its payer unless that is the payee itself. */
  predicate Pays(m: Movement, np: NewPosting) {
    && np.owner == m.to && np.asset == m.asset && np.value == m.amount
    && np.payer == if m.from == m.to then None else Some(m.from)
  }

  lemma {:induction false} ChangeUnpaid(ds: seq<Debit>, av: Availability, accounts: Accounts)
    requires CoverAll(ds, av, accounts).Ok?
    ensures var created := CoverAll(ds, av, accounts).value.created; forall i :: 0 <= i < |created| ==> created[i].payer.None?
  {
    if ds != [] {
      ChangeUnpaid(ds[..|ds| - 1], av, accounts);
    }
  }

  lemma ResolvedUnpaid(digest: Digest, s: State, t: Transfer, e: Envelope)
    requires ResolvesTo(digest, s, t, e)
    ensures forall i :: |t.movements| <= i < |e.creates| ==> e.creates[i].payer.None?
  {
    var draft, av, accounts :| DraftOf(t.movements, draft) && IntentLoaded(s, draft, av, accounts)
      && Resolved(t, draft, av, accounts) == Ok(e.(snapshots := []))
      && SnapshotsOf(digest, s, CreateOwners(e)) == Some(e.snapshots);
    hide IntentLoaded, SnapshotsOf, CoverAll, NetDebit;
    ChangeUnpaid(draft.debits, av, accounts);
  }

  lemma IntentFiles(digest: Digest, s: State, t: Transfer, ts: i64, s': State, r: Receipt)
    requires Inv(s) && CommitsTransfer(digest, s, t, ts, s', Ok(r)) && r.transferId !in s.transfers
    ensures IntentFiled(digest, t, ts, s', r.transferId)
  {
    hide Inv, ResolvesTo, CommitsPinned, PinnedTo, WithSnapshots, EnvelopeBytes, ResolutionFails;
    var e :| ResolvesTo(digest, s, t, e) && CommitsEnvelope(digest, s, e, ts, s', Ok(r));
    LogParts(s);
    ResolvedRealises(digest, s, t, e);
    ResolvedUnpaid(digest, s, t, e);
    EnvelopeFiles(digest, s, e, ts, s', r);
    SameButPins(digest, s, e, s'.transfers[r.transferId].envelope);
  }

  // ----- why a commit is refused -----

  /** Some balance the store's own floor check adds up overflows in some order. */
  ghost predicate FloorMayFail(digest: Digest, s: State, p: Envelope) {
    exists l, ts :: LoadedNow(s, p, l) && !FloorSafe(s, RequestOf(digest, p, l, ts))
  }

  /** What each refusal of a commit means.  Validation has already seen the current accounts
      and balances, so that of the store's own guards only the one against spending a posting
      that is no longer active is left. */
  ghost predicate Refusal(digest: Digest, s: State, p: Envelope, error: LedgerError) {
    match error
    case StoreFailed => LoadMayFail(s, p, StoreFailed) || FloorMayFail(digest, s, p)
    case BookNotFound(b) => b == p.book && b !in s.books && b != 0
    case Invalid(reason) => exists l :: LoadedNow(s, p, l) && !Acceptable(digest, InputOf(p, l)) && Justified(digest, InputOf(p, l), reason)
    case RejectedByStore(rejection) => rejection.DoubleSpend? && rejection.id in p.consumes && rejection.id !in s.active
    case _ => false
  }

  lemma CommitRefused(digest: Digest, s: State, p: Envelope, ts: i64, s': State, error: LedgerError)
    requires Inv(s) && |p.creates| <= TWO16 && CommitsPinned(digest, s, p, ts, s', Err(error))
    ensures s' == s && Refusal(digest, s, p, error)
  {
    hide Inv, Grows, CommitsPinned, Recorded, Refusal;
    CommitDecides(digest, s, p, ts, s', Err(error));
    RefusedFor(digest, s, p, ts, s', error);
  }

  lemma RefusedFor(digest: Digest, s: State, p: Envelope, ts: i64, s': State, error: LedgerError)
    requires Inv(s) && |p.creates| <= TWO16 && CommitsPinned(digest, s, p, ts, s', Err(error))
    ensures Refusal(digest, s, p, error)
  {
    hide Inv, LoadedNow, Acceptable, Justified, Commits, EnvelopeIdOf, FloorMayFail, ReadMayFail;
    if l, out :| Submitted(digest, s, p, l, ts, s', out) && Err(error) == AnswerOf(out) {
      StoreRefused(digest, s, p, l, ts, s', out);
    }
  }

  lemma StoreRefused(digest: Digest, s: State, p: Envelope, l: Loaded, ts: i64, s': State, out: CommitResult)
    requires Inv(s) && |p.creates| <= TWO16 && EnvelopeIdOf(digest, p) !in s.transfers
    requires Submitted(digest, s, p, l, ts, s', out) && AnswerOf(out).Err?
    ensures Refusal(digest, s, p, AnswerOf(out).error)
  {
    hide Inv, LoadedNow, Acceptable, Commits, FloorSafe, EnvelopeIdOf, RequestOf;
    var req := RequestOf(digest, p, l, ts);
    OnlySpendGuard(digest, s, p, l, ts);
    NeverOverdraft(digest, s, p, l, ts, s', out);
    GuardOrSums(s, req, s', out);
    SpendGuard(s, p.consumes);
    assert AnswerOf(out).error == StoreFailed ==> !FloorSafe(s, req);
  }

  lemma OnlySpendGuard(digest: Digest, s: State, p: Envelope, l: Loaded, ts: i64)
    requires LoadedNow(s, p, l) && Acceptable(digest, InputOf(p, l)) && EnvelopeIdOf(digest, p) !in s.transfers
    ensures Guard(s, RequestOf(digest, p, l, ts)) == DoubleSpendGuard(s, p.consumes)
  {
    InvolvedUsable(digest, s, p, l);
    hide LoadedNow, Acceptable, EnvelopeIdOf, LifecycleGuard, DoubleSpendGuard, Owners;
  }

  lemma NeverOverdraft(digest: Digest, s: State, p: Envelope, l: Loaded, ts: i64, s': State, out: CommitResult)
    requires Inv(s) && |p.creates| <= TWO16 && LoadedNow(s, p, l) && Acceptable(digest, InputOf(p, l))
    requires Commits(s, RequestOf(digest, p, l, ts), s', out)
    ensures !(out.Ok? && out.value.Rejected? && out.value.reason.Overdraft?)
  {
    hide Inv, Grows, Acceptable, History, PlanSound, Commits, LoadedFrom;
    SingleHistory(s);
    StalePlanSound(digest, [s], p, l);
    PlannedCommitDecided(s, RequestOf(digest, p, l, ts), s', out);
  }

  lemma GuardOrSums(s: State, req: CommitRequest, s': State, out: CommitResult)
    requires Commits(s, req, s', out) && !(out.Ok? && out.value.Rejected? && out.value.reason.Overdraft?) && AnswerOf(out).Err?
    ensures Guard(s, req) == Some(out) || (Guard(s, req).None? && out == Err(Internal) && !FloorSafe(s, req))
  {
    hide Guard, FloorSafe, FloorHolds, FloorBreached, Applied;
  }

  /** The accounts validation accepted are the current ones. */
  lemma InvolvedUsable(digest: Digest, s: State, p: Envelope, l: Loaded)
    requires LoadedNow(s, p, l) && Acceptable(digest, InputOf(p, l))
    ensures LifecycleGuard(s, Owners(p, l.consumed)).None?
  {
    var owners := Owners(p, l.consumed);
    forall a | a in owners ensures Head(s, a).Some? && !Head(s, a).value.IsFrozen() && !Head(s, a).value.IsClosed() {
      assert Usable(l.accounts, a);
    }
    hide Owners, LoadedNow, Acceptable;
    UsablePass(s, owners);
  }

  lemma {:induction false} UsablePass(s: State, involved: seq<AccountId>)
    requires forall a :: a in involved ==> Head(s, a).Some? && !Head(s, a).value.IsFrozen() && !Head(s, a).value.IsClosed()
    ensures LifecycleGuard(s, involved).None?
  {
    if involved != [] {
      assert involved[0] in involved;
      UsablePass(s, involved[1..]);
    }
  }

  lemma {:induction false} SpendGuard(s: State, ids: seq<PostingId>)
    ensures DoubleSpendGuard(s, ids).Some? ==>
      exists id :: id in ids && id !in s.active && DoubleSpendGuard(s, ids) == Some(Ok(Rejected(DoubleSpend(id))))
  {
    if ids != [] {
      assert ids[0] in ids;
      SpendGuard(s, ids[1..]);
    }
  }
}

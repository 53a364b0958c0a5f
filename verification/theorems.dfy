/** What the invariant means for a ledger user, in every state of every run. */
module LedgerTheorems {
  import opened Wrappers
  import opened Domain
  import opened Totals
  import opened Amounts
  import opened Events
  import opened Store
  import opened Canonical
  import opened Validate
  import opened Runs
  import opened RunProofs

  /** Value is conserved: the live postings of each asset always sum to zero. */
  lemma LiveAssetsSumToZero(digest: Digest, states: seq<State>, steps: seq<Step>, i: nat, asset: AssetId)
    requires IsRun(digest, states, steps) && i < |states|
    ensures LiveSum(states[i], OfAsset(asset)) == 0
  {
    RunSafe(digest, states, steps, i, i);
    ConservedByLog(states[i], asset);
  }

  lemma ConservedByLog(s: State, asset: AssetId)
    requires SumsOk(s)
    ensures LiveSum(s, OfAsset(asset)) == 0
  {
    TotalZero(Deltas(s, OfAsset(asset)));
  }

  /** No double spend: a posting is consumed by at most one stored transfer, and from
      then on it is in neither live table, in this state and in every later one. */
  lemma SpentOnceAndForAll(
    digest: Digest, states: seq<State>, steps: seq<Step>, i: nat, j: nat, t: EnvelopeId, u: EnvelopeId, id: PostingId)
    requires IsRun(digest, states, steps) && i <= j < |states|
    requires t in states[i].transfers && id in Consumes(states[i], t)
    ensures id in states[j].immutable && id !in states[j].active && id !in states[j].reserved
    ensures u in states[j].transfers && id in Consumes(states[j], u) ==> u == t
  {
    RunSafe(digest, states, steps, i, j);
    SpentLater(states[i], states[j], t, u, id);
  }

  lemma SpentLater(s: State, s': State, t: EnvelopeId, u: EnvelopeId, id: PostingId)
    requires SpentOk(s) && SpentOk(s') && RowsKept(s, s') && t in s.transfers && id in Consumes(s, t)
    ensures id in s'.immutable && id !in s'.active && id !in s'.reserved
    ensures u in s'.transfers && id in Consumes(s', u) ==> u == t
  {
    assert id in Consumes(s', t);
    assert id in s'.immutable && id !in Live(s');
  }

  /** An account that forbids overdraft never holds a negative live posting, so no
      balance of it is ever negative. */
  lemma NoOverdraft(digest: Digest, states: seq<State>, steps: seq<Step>, i: nat, a: AccountId, asset: AssetId)
    requires IsRun(digest, states, steps) && i < |states| && Forbids(states[i], a)
    ensures forall id :: id in Live(states[i]) && Live(states[i])[id].owner == a ==> Live(states[i])[id].value >= 0
    ensures LiveSum(states[i], OfHolder(a, asset)) >= 0
  {
    RunSafe(digest, states, steps, i, i);
    HoldingsNonNegative(states[i], a, asset);
  }

  lemma HoldingsNonNegative(s: State, a: AccountId, asset: AssetId)
    requires TablesOk(s) && OwnershipOk(s) && Forbids(s, a)
    ensures forall id :: id in Live(s) && Live(s)[id].owner == a ==> Live(s)[id].value >= 0
    ensures LiveSum(s, OfHolder(a, asset)) >= 0
  {
    LiveRows(s);
    SumRowsPart(OfHolder(a, asset), Live(s), Live(s));
  }

  lemma {:induction false} SumPostingsNonNegative(sl: Slice, ps: seq<Posting>)
    requires forall i :: 0 <= i < |ps| ==> 0 <= Weight(sl, ps[i])
    ensures 0 <= SumPostings(sl, ps)
  {
    if ps != [] {
      SumPostingsNonNegative(sl, ps[..|ps| - 1]);
    }
  }

  /** What the in-transaction floor check sees for a sound plan: only non-negative
      amounts, summing to the balance the commit leaves minus what is reserved. */
  lemma FloorSeesNonNegative(s: State, req: CommitRequest, a: AccountId, asset: AssetId)
    requires TablesOk(s) && OwnershipOk(s) && PlanSound(s, req.record.envelope, req.involved)
    requires req.create == PlannedPostings(req.transferId, req.record.envelope.creates) && Forbids(s, a)
    ensures forall id :: id in s.active ==> 0 <= Weight(OfHolder(a, asset), s.active[id])
    ensures forall i :: 0 <= i < |req.create| ==> 0 <= Weight(OfHolder(a, asset), req.create[i])
    ensures 0 <= Projected(s, req, a, asset)
  {
    var sl := OfHolder(a, asset);
    SumRowsPart(sl, s.active, s.active - IdSet(req.consume));
    SumPostingsNonNegative(sl, req.create);
  }

  /** The overdraft rejection inside the commit transaction cannot fire for a plan
      validated from any earlier reads; and as long as the resulting balances fit in
      64 bits neither can the overflow error: a planned commit is decided by its
      lifecycle and double-spend guards alone. */
  lemma FloorNeverFires(
    digest: Digest, states: seq<State>, steps: seq<Step>, e: Envelope, l: Loaded, ts: i64, s': State, r: CommitResult)
    requires IsRun(digest, states, steps)
    requires LoadedFrom(states, e, l) && Acceptable(digest, InputOf(e, l)) && |e.creates| <= TWO16
    requires Commits(states[|states| - 1], RequestOf(digest, e, l, ts), s', r)
    ensures !(r.Ok? && r.value.Rejected? && r.value.reason.Overdraft?)
    ensures var s, req := states[|states| - 1], RequestOf(digest, e, l, ts);
      (forall a, asset :: a in req.involved && Forbids(s, a) ==> Projected(s, req, a, asset) <= CENT_MAX) ==>
      r == if Guard(s, req).Some? then Guard(s, req).value else Ok(Committed(Receipt(req.transferId)))
  {
    hide Acceptable, LoadedFrom, Inv, Grows, Guard;
    var s, req := states[|states| - 1], RequestOf(digest, e, l, ts);
    RunHistory(digest, states, steps, |states| - 1);
    assert states[..|states|] == states;
    LatestInv(states);
    StalePlanSound(digest, states, e, l);
    PlannedCommitDecided(s, req, s', r);
  }

  lemma FloorAddsUp(s: State, req: CommitRequest, a: AccountId, asset: AssetId)
    requires TablesOk(s) && OwnershipOk(s) && PlanSound(s, req.record.envelope, req.involved)
    requires req.create == PlannedPostings(req.transferId, req.record.envelope.creates) && Forbids(s, a)
    requires Projected(s, req, a, asset) <= CENT_MAX
    ensures Summable(OfHolder(a, asset), s.active - IdSet(req.consume)) && RunningSumsFit(OfHolder(a, asset), req.create)
    ensures Fits(Projected(s, req, a, asset))
  {
    FloorSeesNonNegative(s, req, a, asset);
    hide TablesOk, OwnershipOk, PlanSound, SumRows, SumPostings, Forbids;
    var sl := OfHolder(a, asset);
    SumRowsPart(sl, s.active, s.active - IdSet(req.consume));
    SumPostingsNonNegative(sl, req.create);
    NonNegativeSummable(sl, s.active - IdSet(req.consume));
    NonNegativeRuns(sl, req.create);
  }

  lemma PlannedCommitDecided(s: State, req: CommitRequest, s': State, r: CommitResult)
    requires Inv(s) && PlanSound(s, req.record.envelope, req.involved)
    requires req.create == PlannedPostings(req.transferId, req.record.envelope.creates)
    requires Commits(s, req, s', r)
    ensures !(r.Ok? && r.value.Rejected? && r.value.reason.Overdraft?)
    ensures (forall a, asset :: a in req.involved && Forbids(s, a) ==> Projected(s, req, a, asset) <= CENT_MAX) ==>
      r == if Guard(s, req).Some? then Guard(s, req).value else Ok(Committed(req.record.receipt))
  {
    hide PlanSound, SumsOk, SpentOk, ProvenanceOk, IndexOk, EventsOk, AccountsOk, OwnershipOk, TablesOk;
    GuardsNeverOverdraft(s, req);
    if forall a, asset :: a in req.involved && Forbids(s, a) ==> Projected(s, req, a, asset) <= CENT_MAX {
      forall a, asset | a in req.involved && Forbids(s, a) && asset in FloorAssets(s, req, a)
        ensures Summable(OfHolder(a, asset), s.active - IdSet(req.consume)) && RunningSumsFit(OfHolder(a, asset), req.create)
        ensures Fits(Projected(s, req, a, asset))
      {
        FloorAddsUp(s, req, a, asset);
      }
      assert FloorSafe(s, req);
    }
    if r.Ok? && r.value.Rejected? && r.value.reason.Overdraft? && Forbids(s, r.value.reason.account) {
      FloorSeesNonNegative(s, req, r.value.reason.account, r.value.reason.asset);
    }
  }

  lemma GuardsNeverOverdraft(s: State, req: CommitRequest)
    ensures var g := Guard(s, req);
      g.Some? && g.value.Ok? && g.value.value.Rejected? ==> !g.value.value.reason.Overdraft?
  {
    LifecycleNeverOverdraft(s, req.involved);
    DoubleSpendNeverOverdraft(s, req.consume);
  }

  lemma {:induction false} LifecycleNeverOverdraft(s: State, involved: seq<AccountId>)
    ensures var g := LifecycleGuard(s, involved);
      g.Some? && g.value.Ok? ==> g.value.value.Rejected? && !g.value.value.reason.Overdraft?
  {
    if involved != [] {
      LifecycleNeverOverdraft(s, involved[1..]);
    }
  }

  lemma {:induction false} DoubleSpendNeverOverdraft(s: State, consume: seq<PostingId>)
    ensures var g := DoubleSpendGuard(s, consume);
      g.Some? ==> g.value.Ok? && g.value.value.Rejected? && g.value.value.reason.DoubleSpend?
  {
    if consume != [] {
      DoubleSpendNeverOverdraft(s, consume[1..]);
    }
  }

  // ----- replay -----

  /** The deltas of only the transfers the index returns for one account. */
  ghost function Replayed(s: State, a: AccountId, asset: AssetId): map<EnvelopeId, int> {
    map t | t in s.transfers && t in s.participation && a in s.participation[t] :: Delta(s, t, OfHolder(a, asset))
  }

  lemma UninvolvedDelta(s: State, t: EnvelopeId, a: AccountId, asset: AssetId)
    requires IndexOk(s) && t in s.transfers && a !in s.participation[t]
    ensures Delta(s, t, OfHolder(a, asset)) == 0
  {
    var e := s.transfers[t].envelope;
    assert !Touches(s.immutable, e, a);
    SumNewOutside(OfHolder(a, asset), e.creates);
    SumIdsOutside(OfHolder(a, asset), s.immutable, e.consumes);
  }

  lemma ReplayEqualsLive(s: State, a: AccountId, asset: AssetId)
    requires IndexOk(s) && SumsOk(s)
    ensures LiveSum(s, OfHolder(a, asset)) == Total(Replayed(s, a, asset))
  {
    var all, part := Deltas(s, OfHolder(a, asset)), Replayed(s, a, asset);
    forall t | t in all && t !in part ensures all[t] == 0 {
      UninvolvedDelta(s, t, a, asset);
    }
    TotalRestrict(all, part);
  }

  /** Replaying the transfers indexed under an account gives its live balance: the
      index drops no transfer that matters and none counts twice. */
  lemma ReplayIsBalance(digest: Digest, states: seq<State>, steps: seq<Step>, i: nat, a: AccountId, asset: AssetId)
    requires IsRun(digest, states, steps) && i < |states|
    ensures LiveSum(states[i], OfHolder(a, asset)) == Total(Replayed(states[i], a, asset))
  {
    RunSafe(digest, states, steps, i, i);
    ReplayEqualsLive(states[i], a, asset);
  }

  // ----- history and events -----

  /** The lifecycle event of an account version, read off the version itself. */
  predicate Announces(kind: EventKind, version: Account) {
    kind == if version.IsClosed() then EventKind.AccountClosed(version.id, version.version)
            else if version.IsFrozen() then EventKind.AccountFrozen(version.id, version.version)
            else EventKind.AccountUnfrozen(version.id, version.version)
  }

  /** A later version of the same account: the next number, and nothing else changed but the
      two lifecycle flags, the lowest bits of the flag word. */
  predicate Follows(prev: Account, next: Account) {
    && next.id == prev.id && next.version == prev.version + 1 && next.book == prev.book && next.metadata == prev.metadata
    && next.flags / 2 / 2 == prev.flags / 2 / 2 && !prev.IsClosed()
  }

  /** Each version after the first follows its predecessor and has exactly one lifecycle
      event, which says what the version is: closed, frozen or neither. */
  lemma VersionsAndEventsMatch(digest: Digest, states: seq<State>, steps: seq<Step>, i: nat, a: AccountId, k: nat)
    requires IsRun(digest, states, steps) && i < |states|
    requires a in states[i].accounts && 1 <= k < |states[i].accounts[a]|
    ensures var log := states[i].accounts[a];
      && log[k].id == a && Follows(log[k - 1], log[k])
      && exists n :: 0 <= n < |states[i].events|
          && Announces(states[i].events[n].kind, log[k])
          && forall m :: 0 <= m < |states[i].events| && SubjectOf(states[i].events[m].kind) == OfVersion(a, log[k].version) ==> m == n
  {
    RunSafe(digest, states, steps, i, i);
    VersionEvent(states[i], a, k);
  }

  lemma VersionEvent(s: State, a: AccountId, k: nat)
    requires AccountsOk(s) && EventsOk(s) && a in s.accounts && 1 <= k < |s.accounts[a]|
    ensures var log := s.accounts[a];
      && log[k].id == a && Follows(log[k - 1], log[k])
      && exists n :: 0 <= n < |s.events|
          && Announces(s.events[n].kind, log[k])
          && forall m :: 0 <= m < |s.events| && SubjectOf(s.events[m].kind) == OfVersion(a, log[k].version) ==> m == n
  {
    var log := s.accounts[a];
    assert LogOk(a, log);
    assert Announced(s, a, k);
    var n :| 0 <= n < |s.events| && Describes(s.events[n].kind, log[k - 1], log[k]);
    assert SubjectOf(s.events[n].kind) == OfVersion(a, log[k].version);
    MutationAnnounced(s.events[n].kind, log[k - 1], log[k]);
  }

  lemma MutationAnnounced(kind: EventKind, prev: Account, next: Account)
    requires Describes(kind, prev, next) && !prev.IsClosed()
    ensures Announces(kind, next) && Follows(prev, next)
  {
  }

  /** Stored transfers and `TransferCommitted` events correspond one to one. */
  lemma TransfersAndEventsMatch(digest: Digest, states: seq<State>, steps: seq<Step>, i: nat, t: EnvelopeId)
    requires IsRun(digest, states, steps) && i < |states|
    ensures var events := states[i].events;
      t in states[i].transfers <==>
      exists n :: 0 <= n < |events| && events[n].kind == TransferCommitted(t)
        && forall m :: 0 <= m < |events| && events[m].kind == TransferCommitted(t) ==> m == n
  {
    RunSafe(digest, states, steps, i, i);
    TransferEvent(states[i], t);
  }

  lemma TransferEvent(s: State, t: EnvelopeId)
    requires EventsOk(s)
    ensures t in s.transfers <==>
      exists n :: 0 <= n < |s.events| && s.events[n].kind == TransferCommitted(t)
        && forall m :: 0 <= m < |s.events| && s.events[m].kind == TransferCommitted(t) ==> m == n
  {
    if t in s.transfers {
      var n :| 0 <= n < |s.events| && SubjectOf(s.events[n].kind) == OfTransfer(t);
      assert s.events[n].kind == TransferCommitted(t);
    } else {
      forall n | 0 <= n < |s.events| ensures s.events[n].kind != TransferCommitted(t) {
        assert SubjectOf(s.events[n].kind) != OfTransfer(t);
      }
    }
  }

  /** Once closed, an account's history and its live postings never change again. */
  lemma ClosedIsFinal(digest: Digest, states: seq<State>, steps: seq<Step>, i: nat, j: nat, a: AccountId, id: PostingId)
    requires IsRun(digest, states, steps) && i <= j < |states| && ClosedIn(states[i], a)
    ensures a in states[j].accounts && states[j].accounts[a] == states[i].accounts[a]
    ensures (id in Live(states[i]) && Live(states[i])[id].owner == a) <==> (id in Live(states[j]) && Live(states[j])[id].owner == a)
  {
    RunSafe(digest, states, steps, i, j);
    ClosedLive(states[i], states[j], a, id);
  }

  /** So an account that was empty when it was closed stays empty. */
  lemma ClosedStaysEmpty(digest: Digest, states: seq<State>, steps: seq<Step>, i: nat, j: nat, a: AccountId)
    requires IsRun(digest, states, steps) && i <= j < |states| && ClosedIn(states[i], a)
    requires forall id :: id in Live(states[i]) ==> Live(states[i])[id].owner != a
    ensures forall id :: id in Live(states[j]) ==> Live(states[j])[id].owner != a
  {
    forall id | id in Live(states[j]) ensures Live(states[j])[id].owner != a {
      ClosedIsFinal(digest, states, steps, i, j, a, id);
    }
  }

  lemma ClosedLive(s: State, s': State, a: AccountId, id: PostingId)
    requires TablesOk(s) && TablesOk(s') && RowsKept(s, s') && ClosedKept(s, s') && ClosedIn(s, a)
    ensures a in s'.accounts && s'.accounts[a] == s.accounts[a]
    ensures (id in Live(s) && Live(s)[id].owner == a) <==> (id in Live(s') && Live(s')[id].owner == a)
  {
    LiveRows(s);
    LiveRows(s');
  }
}

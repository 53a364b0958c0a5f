/** On every state a ledger run can reach, the SQL store and the in-memory store give a
    planned commit and a transition the same outcome and stay related. */
module SqlTheorems {
  import opened Wrappers
  import opened Domain
  import opened Amounts
  import opened Events
  import opened Store
  import opened Canonical
  import opened Validate
  import opened Runs
  import opened RunProofs
  import opened LedgerTheorems
  import opened SqlTables

  // ----- reads agree -----

  lemma HeadsAgree(t: Tables, s: State, a: AccountId)
    requires AccountsRelated(t, s)
    ensures SqlHead(t, a) == Head(s, a) == Head(Guarded(t), a)
    ensures SqlForbids(t, a) == Forbids(s, a)
  {
    GuardedHead(t, a);
  }

  lemma {:induction false} LifecycleAgrees(t: Tables, s: State, involved: seq<AccountId>)
    requires AccountsRelated(t, s)
    ensures LifecycleGuard(Guarded(t), involved) == LifecycleGuard(s, involved)
  {
    hide Guarded, AccountsRelated;
    if involved != [] {
      HeadsAgree(t, s, involved[0]);
      LifecycleAgrees(t, s, involved[1..]);
    }
  }

  lemma {:induction false} DoubleSpendAgrees(s: State, s': State, consume: seq<PostingId>)
    requires s.active == s'.active
    ensures DoubleSpendGuard(s, consume) == DoubleSpendGuard(s', consume)
  {
    if consume != [] {
      DoubleSpendAgrees(s, s', consume[1..]);
    }
  }

  lemma GuardsAgree(t: Tables, s: State, req: CommitRequest)
    requires Related(t, s)
    ensures Guard(Guarded(t), req) == Guard(s, req)
  {
    LifecycleAgrees(t, s, req.involved);
    DoubleSpendAgrees(Guarded(t), s, req.consume);
  }

  lemma LiveAgree(t: Tables, s: State)
    requires PostingsRelated(t, s)
    ensures LivePostings(t.live) == Live(s)
  {
  }

  // ----- writes agree -----

  lemma {:induction false} InsertedFresh(live: LiveTable, ps: seq<Posting>)
    requires FreshIds(LivePostings(live), ps)
    ensures ActiveRows(InsertedLive(live, ps)) == Put(ActiveRows(live), ps)
    ensures HeldRows(InsertedLive(live, ps)) == HeldRows(live)
    ensures InsertedLive(live, ps).Keys == live.Keys + IdsOf(ps)
  {
    if ps != [] {
      var front, p := ps[..|ps| - 1], ps[|ps| - 1];
      assert FreshIds(LivePostings(live), front);
      InsertedFresh(live, front);
      IdsOfSnoc(ps);
      hide ActiveRows, HeldRows;
      NewRow(InsertedLive(live, front), p);
    }
  }

  lemma DeletedRows(live: LiveTable, ids: set<PostingId>)
    ensures ActiveRows(Deleted(live, ids, None)) == ActiveRows(live) - ids
    ensures HeldRows(Deleted(live, ids, None)) == HeldRows(live)
    ensures forall id :: id in LivePostings(Deleted(live, ids, None)) ==> id in LivePostings(live)
  {
  }

  lemma AppliedPostingsAgree(t: Tables, s: State, req: CommitRequest)
    requires PostingsRelated(t, s) && TablesOk(s) && ProvenanceOk(s) && Ready(s, req)
    ensures PostingsRelated(SqlApplied(t, req), Applied(s, req))
  {
    CreatesFresh(s, req);
    LiveAgree(t, s);
    LiveRows(s);
    DeletedRows(t.live, IdSet(req.consume));
    hide Ready, ProvenanceOk, ActiveRows, HeldRows, LivePostings, Deleted, Live;
    InsertedFresh(Deleted(t.live, IdSet(req.consume), None), req.create);
  }

  lemma AppliedLogAgrees(t: Tables, s: State, req: CommitRequest)
    requires LogRelated(t, s) && IndexOk(s) && req.transferId !in s.transfers
    ensures LogRelated(SqlApplied(t, req), Applied(s, req))
  {
    hide Append, PutAbsent, InsertedLive, Deleted;
    assert req.transferId !in s.participation;
  }

  lemma AppliedAgrees(t: Tables, s: State, req: CommitRequest)
    requires Related(t, s) && TablesOk(s) && ProvenanceOk(s) && IndexOk(s) && Ready(s, req)
    ensures Related(SqlApplied(t, req), Applied(s, req))
  {
    AppliedPostingsAgree(t, s, req);
    AppliedLogAgrees(t, s, req);
    hide PostingsRelated, LogRelated, TablesOk, ProvenanceOk, IndexOk, Ready, HeadsRelated, VersionsStored, VersionsLogged;
  }

  // ----- the floor after the writes -----

  lemma AppliedHoldings(s: State, req: CommitRequest, a: AccountId, asset: AssetId)
    requires TablesOk(s) && ProvenanceOk(s) && OwnershipOk(s) && Ready(s, req) && Forbids(s, a)
    ensures var s', sl := Applied(s, req), OfHolder(a, asset);
      && 0 <= LiveSum(s', sl) == LiveSum(s, sl) + PlanDelta(s, req, sl)
      && forall id :: id in Live(s') ==> 0 <= Weight(sl, Live(s')[id])
  {
    hide Ready, TablesOk, OwnershipOk, ProvenanceOk, PlanDelta, LiveSum, Live;
    AppliedLiveSum(s, req, OfHolder(a, asset));
    AppliedTables(s, req);
    AppliedOwnership(s, req);
    HoldingsNonNegative(Applied(s, req), a, asset);
  }

  /** The live sum the SQL floor reads back is the balance the commit leaves, and for an
      account that forbids overdraft no row in it is negative. */
  lemma SqlFloorSees(t: Tables, s: State, req: CommitRequest, a: AccountId, asset: AssetId)
    requires Related(t, s) && Inv(s) && Ready(s, req) && Forbids(s, a)
    ensures var live := SqlApplied(t, req).live;
      && 0 <= SqlProjected(live, a, asset) == LiveSum(s, OfHolder(a, asset)) + PlanDelta(s, req, OfHolder(a, asset))
      && forall id :: id in live ==> 0 <= Weight(OfHolder(a, asset), live[id].posting)
  {
    hide Ready, TablesOk, OwnershipOk, ProvenanceOk, IndexOk, SpentOk, SumsOk, EventsOk, AccountsOk;
    hide PlanDelta, Weight, Applied, SqlApplied, PostingsRelated, AccountsRelated, LogRelated;
    AppliedAgrees(t, s, req);
    LiveAgree(SqlApplied(t, req), Applied(s, req));
    AppliedHoldings(s, req, a, asset);
    var live := SqlApplied(t, req).live;
    assert forall id :: id in live ==> live[id].posting == LivePostings(live)[id];
  }

  /** The balance every overdraft-forbidding holding is left with is representable. */
  ghost predicate BalancesFit(s: State, req: CommitRequest) {
    forall a, asset :: Forbids(s, a) ==>
      LiveSum(s, OfHolder(a, asset)) + PlanDelta(s, req, OfHolder(a, asset)) <= CENT_MAX
  }

  /** A planned commit on a reachable state: both stores answer alike and stay related,
      although one checks the floor before writing and the other after, over different
      rows. */
  lemma CommitsAgree(
    t: Tables, s: State, req: CommitRequest, s': State, r: CommitResult, t': Tables, q: CommitResult)
    requires Related(t, s) && Inv(s) && BalancesFit(s, req)
    requires req.transferId !in s.transfers && Guard(s, req).None? ==> Ready(s, req)
    requires Commits(s, req, s', r) && SqlCommits(t, req, t', q)
    ensures q == r && Related(t', s')
  {
    GuardsAgree(t, s, req);
    if Guard(s, req).None? {
      SqlCommitsReady(t, s, req, t', q);
      MemCommitsReady(s, req, s', r);
      AppliedAgrees(t, s, req);
    }
  }

  /** Without the bound on balances there is one more answer: either store may find that a
      sum overflows, and then changes nothing.  Neither ever rejects for overdraft, and when
      both commit they stay related. */
  lemma CommitsAgreeUnlessOverflow(
    t: Tables, s: State, req: CommitRequest, s': State, r: CommitResult, t': Tables, q: CommitResult)
    requires Related(t, s) && Inv(s)
    requires req.transferId !in s.transfers && Guard(s, req).None? ==> Ready(s, req)
    requires Commits(s, req, s', r) && SqlCommits(t, req, t', q)
    ensures (q == r && Related(t', s')) || (r == Err(Internal) && s' == s) || (q == Err(Internal) && t' == t)
  {
    hide Inv, Ready, Related, Guard, SqlApplied, Applied, Commits, SqlCommits;
    GuardsAgree(t, s, req);
    if Guard(s, req).None? {
      GuardNew(s, req);
      MemCommitsOrOverflows(s, req, s', r);
      SqlCommitsOrOverflows(t, s, req, t', q);
      AppliedAgreesInv(t, s, req);
    } else {
      GuardDecides(t, s, req, s', r, t', q);
    }
  }

  lemma GuardNew(s: State, req: CommitRequest)
    requires Guard(s, req).None?
    ensures req.transferId !in s.transfers
  {
    hide LifecycleGuard, DoubleSpendGuard;
  }

  lemma GuardDecides(t: Tables, s: State, req: CommitRequest, s': State, r: CommitResult, t': Tables, q: CommitResult)
    requires Guard(s, req).Some? && Guard(Guarded(t), req) == Guard(s, req) && Commits(s, req, s', r) && SqlCommits(t, req, t', q)
    ensures q == r && s' == s && t' == t
  {
    hide Guard, Guarded;
  }

  lemma MemCommitsOrOverflows(s: State, req: CommitRequest, s': State, r: CommitResult)
    requires Inv(s) && Ready(s, req) && Guard(s, req).None? && Commits(s, req, s', r)
    ensures (r == Ok(Committed(req.record.receipt)) && s' == Applied(s, req)) || (r == Err(Internal) && s' == s)
  {
    hide Inv, Ready, PlanSound, Guard, Applied, FloorSafe, FloorHolds, FloorBreached;
    ReadySound(s, req);
    PlannedCommitDecided(s, req, s', r);
  }

  lemma SqlCommitsOrOverflows(t: Tables, s: State, req: CommitRequest, t': Tables, q: CommitResult)
    requires Related(t, s) && Inv(s) && Ready(s, req) && Guard(s, req).None? && SqlCommits(t, req, t', q)
    ensures (q == Ok(Committed(req.record.receipt)) && t' == SqlApplied(t, req)) || (q == Err(Internal) && t' == t)
  {
    hide Inv, Ready, Related, Guard, SqlApplied, AccountsRelated, SqlFloorSafe, SqlFloorHolds, SqlProjected, PlanDelta, SqlTables.Touched;
    GuardsAgree(t, s, req);
    RelatedAccounts(t, s);
    forall a, asset | SqlForbids(t, a) ensures 0 <= SqlProjected(SqlApplied(t, req).live, a, asset) {
      HeadsAgree(t, s, a);
      SqlFloorSees(t, s, req, a, asset);
    }
  }

  lemma ReadySound(s: State, req: CommitRequest)
    requires Ready(s, req)
    ensures PlanSound(s, req.record.envelope, req.involved)
    ensures req.create == PlannedPostings(req.transferId, req.record.envelope.creates)
  {
  }

  lemma AppliedAgreesInv(t: Tables, s: State, req: CommitRequest)
    requires Related(t, s) && Inv(s) && Ready(s, req)
    ensures Related(SqlApplied(t, req), Applied(s, req))
  {
    hide Ready, Related, SqlApplied, Applied, TablesOk, ProvenanceOk, IndexOk;
    AppliedAgrees(t, s, req);
  }

  lemma SqlCommitsReady(t: Tables, s: State, req: CommitRequest, t': Tables, q: CommitResult)
    requires Related(t, s) && Inv(s) && BalancesFit(s, req) && Ready(s, req) && Guard(s, req).None?
    requires SqlCommits(t, req, t', q)
    ensures q == Ok(Committed(req.record.receipt)) && t' == SqlApplied(t, req)
  {
    hide Ready, Inv, Related, Guard, SqlTables.Touched, SqlApplied, AccountsRelated, PlanDelta;
    GuardsAgree(t, s, req);
    RelatedAccounts(t, s);
    forall a, asset | SqlForbids(t, a)
      ensures Addable(SqlApplied(t, req).live, a, asset) && 0 <= SqlProjected(SqlApplied(t, req).live, a, asset)
    {
      HeadsAgree(t, s, a);
      SqlFloorSees(t, s, req, a, asset);
      NonNegativeSummable(OfHolder(a, asset), LivePostings(SqlApplied(t, req).live));
    }
  }

  lemma MemCommitsReady(s: State, req: CommitRequest, s': State, r: CommitResult)
    requires Inv(s) && BalancesFit(s, req) && Ready(s, req) && Guard(s, req).None?
    requires Commits(s, req, s', r)
    ensures r == Ok(Committed(req.record.receipt)) && s' == Applied(s, req)
  {
    forall a, asset | a in req.involved && Forbids(s, a) ensures Projected(s, req, a, asset) <= CENT_MAX {
      ProjectedAtMostLeft(s, req, a, asset);
    }
    assert req.create == PlannedPostings(req.transferId, req.record.envelope.creates);
    assert PlanSound(s, req.record.envelope, req.involved);
    hide Ready, Inv, PlanSound, BalancesFit, Projected;
    PlannedCommitDecided(s, req, s', r);
  }

  /** Leaving reserved rows out can only lower the in-memory projection. */
  lemma ProjectedAtMostLeft(s: State, req: CommitRequest, a: AccountId, asset: AssetId)
    requires Inv(s) && Ready(s, req) && Forbids(s, a)
    ensures Projected(s, req, a, asset) <= LiveSum(s, OfHolder(a, asset)) + PlanDelta(s, req, OfHolder(a, asset))
  {
    var s', sl := Applied(s, req), OfHolder(a, asset);
    AppliedHoldings(s, req, a, asset);
    SurvivorsFresh(s, req);
    PutSum(sl, s.active - IdSet(req.consume), req.create);
    assert Projected(s, req, a, asset) == SumRows(sl, s'.active);
    AppliedTables(s, req);
    hide Inv, Ready, PlanDelta, Applied;
    LiveRows(s');
    SumRowsPart(sl, Live(s'), s'.active);
  }

  /** In every run, whatever earlier states the client read, a planned commit sent to an
      SQL store related to the current state does what the in-memory store does, unless one of
      them finds that a sum overflows; if the balances fit neither does. */
  lemma SqlFollowsRun(
    digest: Digest, states: seq<State>, steps: seq<Step>, e: Envelope, l: Loaded, ts: i64,
    s': State, r: CommitResult, t: Tables, t': Tables, q: CommitResult)
    requires IsRun(digest, states, steps) && Related(t, states[|states| - 1])
    requires LoadedFrom(states, e, l) && Acceptable(digest, InputOf(e, l)) && |e.creates| <= TWO16
    requires Commits(states[|states| - 1], RequestOf(digest, e, l, ts), s', r)
    requires SqlCommits(t, RequestOf(digest, e, l, ts), t', q)
    ensures var s := states[|states| - 1];
      (q == r && Related(t', s')) || (r == Err(Internal) && s' == s) || (q == Err(Internal) && t' == t)
    ensures BalancesFit(states[|states| - 1], RequestOf(digest, e, l, ts)) ==> q == r && Related(t', s')
  {
    hide Inv, Grows, Acceptable, PlanSound, LoadedFrom, History, Related, BalancesFit, SqlCommits, Commits, RequestOf, Guard, Ready;
    var s, req := states[|states| - 1], RequestOf(digest, e, l, ts);
    RunHistory(digest, states, steps, |states| - 1);
    assert states[..|states|] == states;
    LatestInv(states);
    assert StepTo(digest, states, DoCommit(e, l, ts), s');
    CommitStepReady(digest, states, e, l, ts, s');
    CommitsAgreeUnlessOverflow(t, s, req, s', r, t', q);
    if BalancesFit(s, req) { CommitsAgree(t, s, req, s', r, t', q); }
  }

  // ----- transitions -----

  /** No row of the account table is newer than its head. */
  lemma RowsUpToHead(t: Tables, s: State, a: AccountId, v: u64)
    requires AccountsRelated(t, s) && AccountsOk(s) && (a, v) in t.accounts
    ensures a in t.heads && v <= t.heads[a]
  {
    assert HasVersionRow(s.accounts, a, v);
    assert LogOk(a, s.accounts[a]);
  }

  /** An account version appended and its event, on both sides. */
  lemma VersionAppended(t: Tables, s: State, next: Account, event: LedgerEvent)
    requires Related(t, s) && next.id in s.accounts && (next.id, next.version) !in t.accounts
    ensures Related(
      t.(accounts := t.accounts[(next.id, next.version) := next], heads := t.heads[next.id := next.version], events := Append(t.events, event)),
      AppendEvent(s.(accounts := s.accounts[next.id := s.accounts[next.id] + [next]]), event))
  {
    hide ActiveRows, HeldRows, HeadsRelated, VersionsStored, VersionsLogged, IndexRelated, Append;
    HeadsAppend(t.heads, s.accounts, next);
    StoredAppend(t.accounts, s.accounts, next);
    LoggedAppend(t.accounts, s.accounts, next);
  }

  lemma EventAppended(t: Tables, s: State, event: LedgerEvent)
    requires Related(t, s)
    ensures Related(t.(events := Append(t.events, event)), AppendEvent(s, event))
  {
    hide ActiveRows, HeldRows, HeadsRelated, VersionsStored, VersionsLogged, IndexRelated, Append;
  }

  lemma TransitionsAnswerAlike(t: Tables, s: State, next: Account, event: LedgerEvent)
    requires AccountsRelated(t, s)
    ensures SqlTransition(t, next, event).1 == CommitTransition(s, next, event).1
  {
    hide AccountsRelated, Append, SqlHead, AppendEvent;
    HeadsAgree(t, s, next.id);
  }

  lemma TransitionsAgree(t: Tables, s: State, next: Account, event: LedgerEvent)
    requires Related(t, s) && AccountsOk(s)
    ensures SqlTransition(t, next, event).1 == CommitTransition(s, next, event).1
    ensures Related(SqlTransition(t, next, event).0, CommitTransition(s, next, event).0)
  {
    hide AccountsOk, Related, AccountsRelated, Append, SqlHead, AppendEvent;
    RelatedAccounts(t, s);
    TransitionsAnswerAlike(t, s, next, event);
    HeadsAgree(t, s, next.id);
    EventAppended(t, s, event);
    if Head(s, next.id).Some? && Head(s, next.id).value.version < next.version {
      NextRowNew(t, s, next);
      VersionAppended(t, s, next, event);
    }
  }

  lemma RelatedAccounts(t: Tables, s: State)
    requires Related(t, s)
    ensures AccountsRelated(t, s)
  {
  }

  lemma NextRowNew(t: Tables, s: State, next: Account)
    requires AccountsRelated(t, s) && AccountsOk(s) && SqlHead(t, next.id).Some? && SqlHead(t, next.id).value.version < next.version
    ensures (next.id, next.version) !in t.accounts
  {
    assert HasVersionRow(s.accounts, next.id, t.heads[next.id]);
    if (next.id, next.version) in t.accounts {
      RowsUpToHead(t, s, next.id, next.version);
      HeadsAgree(t, s, next.id);
    }
  }

  function Appended(logs: Versions, next: Account): Versions
    requires next.id in logs
  {
    logs[next.id := logs[next.id] + [next]]
  }

  lemma HeadsAppend(heads: map<AccountId, u64>, logs: Versions, next: Account)
    requires HeadsRelated(heads, logs) && next.id in logs
    ensures HeadsRelated(heads[next.id := next.version], Appended(logs, next))
  {
  }

  lemma StoredAppend(rows: map<(AccountId, u64), Account>, logs: Versions, next: Account)
    requires VersionsStored(rows, logs) && next.id in logs && (next.id, next.version) !in rows
    ensures VersionsStored(rows[(next.id, next.version) := next], Appended(logs, next))
  {
    var longer := Appended(logs, next);
    forall a, i | a in longer && 0 <= i < |longer[a]| ensures longer[a][i] == next || (a in logs && i < |logs[a]| && longer[a][i] == logs[a][i]) {
    }
  }

  lemma LoggedAppend(rows: map<(AccountId, u64), Account>, logs: Versions, next: Account)
    requires VersionsLogged(rows, logs) && next.id in logs
    ensures VersionsLogged(rows[(next.id, next.version) := next], Appended(logs, next))
  {
    var longer := Appended(logs, next);
    forall a, v | (a, v) in rows[(next.id, next.version) := next] ensures HasVersionRow(longer, a, v) {
      if (a, v) == (next.id, next.version) {
        assert longer[a][|logs[a]|].version == v;
      } else {
        assert HasVersionRow(logs, a, v);
        var i :| 0 <= i < |logs[a]| && logs[a][i].version == v;
        assert longer[a][i].version == v;
      }
    }
  }
}

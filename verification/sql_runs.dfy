/** A whole run on both stores: from empty tables, every call of every client gets the same
    answer and leaves the tables related (crates/kuatia-storage-sql/src). */
module SqlRuns {
  import opened Wrappers
  import opened Domain
  import opened Amounts
  import opened Events
  import opened Store
  import opened Canonical
  import opened Validate
  import opened Runs
  import opened RunProofs
  import opened LedgerTheorems
  import opened SqlTables
  import opened SqlTheorems

  const EMPTY_TABLES: Tables := Tables(map[], map[], map[], map[], map[], {}, [])

  /** What a call answers its client. */
  datatype Reply = OfCommit(r: CommitResult) | OfTransition(o: Result<TransitionOutcome, StoreError>) | OfCount(n: nat) | Done

  /** The in-memory store's part of a step. */
  ghost predicate MemReplies(digest: Digest, s: State, step: Step, s': State, a: Reply) {
    match step
    case DoCommit(e, l, ts) => a.OfCommit? && Commits(s, RequestOf(digest, e, l, ts), s', a.r)
    case DoTransition(m, base, ts) =>
      base.version + 1 < TWO64 &&
      (s', a) == (var c := CommitTransition(s, Mutated(m, base), LedgerEvent(ts, EventFor(m, base.id, base.version + 1))); (c.0, OfTransition(c.1)))
    case DoCreateAccount(account) => (s', a) == (var c := CreateAccount(s, account); (c.0, OfCount(c.1)))
    case DoAppendCreated(o, ts) => s' == AppendEvent(s, LedgerEvent(ts, AccountCreated(o))) && a == Done
    case DoReserve(ids, rid) => (s', a) == (var c := Reserve(s, ids, rid); (c.0, OfCount(c.1)))
    case DoRelease(ids, rid) => (s', a) == (var c := Release(s, ids, rid); (c.0, OfCount(c.1)))
    case DoCreateBook(book) => s' == CreateBook(s, book).0 && a == Done
    case DoCachePoint(o, asset, p) => s' == AppendProjection(s, o, asset, p) && a == Done
  }

  /** The SQL store's: statements on its tables; books and cache points are kept elsewhere. */
  ghost predicate SqlReplies(digest: Digest, t: Tables, step: Step, t': Tables, a: Reply) {
    match step
    case DoCommit(e, l, ts) => a.OfCommit? && SqlCommits(t, RequestOf(digest, e, l, ts), t', a.r)
    case DoTransition(m, base, ts) =>
      base.version + 1 < TWO64 &&
      (t', a) == (var c := SqlTransition(t, Mutated(m, base), LedgerEvent(ts, EventFor(m, base.id, base.version + 1))); (c.0, OfTransition(c.1)))
    case DoCreateAccount(account) => (t', a) == (var c := SqlCreate(t, account); (c.0, OfCount(c.1)))
    case DoAppendCreated(o, ts) => t' == t.(events := Append(t.events, LedgerEvent(ts, AccountCreated(o)))) && a == Done
    case DoReserve(ids, rid) =>
      t' == t.(live := Updated(t.live, IdSet(ids), None, Some(rid))) && a == OfCount(|Matching(t.live, IdSet(ids), None)|)
    case DoRelease(ids, rid) =>
      t' == t.(live := Updated(t.live, IdSet(ids), Some(rid), None)) && a == OfCount(|Matching(t.live, IdSet(ids), Some(rid))|)
    case DoCreateBook(_) => t' == t && a == Done
    case DoCachePoint(_, _, _) => t' == t && a == Done
  }

  // ----- each step -----

  lemma CreatesAgree(t: Tables, s: State, account: Account)
    requires Related(t, s) && AccountsOk(s)
    ensures SqlCreate(t, account).1 == CreateAccount(s, account).1
    ensures Related(SqlCreate(t, account).0, CreateAccount(s, account).0)
  {
    hide AccountsOk, ActiveRows, HeldRows, HeadsRelated, VersionsStored, VersionsLogged, IndexRelated;
    RegisteredHeads(t, s, account);
    if account.id !in s.accounts {
      NewAccountRows(t, s, account);
    }
  }

  lemma RegisteredHeads(t: Tables, s: State, account: Account)
    requires AccountsRelated(t, s) && AccountsOk(s)
    ensures account.id in t.heads <==> account.id in s.accounts
    ensures account.id !in s.accounts ==> (account.id, account.version) !in t.accounts
  {
    if account.id in s.accounts {
      assert LogOk(account.id, s.accounts[account.id]);
    }
    if (account.id, account.version) in t.accounts {
      assert HasVersionRow(s.accounts, account.id, account.version);
    }
  }

  lemma NewAccountRows(t: Tables, s: State, account: Account)
    requires AccountsRelated(t, s) && account.id !in s.accounts && (account.id, account.version) !in t.accounts
    ensures var logs := s.accounts[account.id := [account]]; var key := (account.id, account.version);
      && HeadsRelated(t.heads[account.id := account.version], logs)
      && VersionsStored(t.accounts[key := account], logs)
      && VersionsLogged(t.accounts[key := account], logs)
  {
    var logs, rows := s.accounts[account.id := [account]], t.accounts[(account.id, account.version) := account];
    NewAccountLogged(t, s, account);
    NewAccountHead(t, s, account);
    NewAccountStored(t, s, account);
    hide HeadsRelated, VersionsLogged, VersionsStored;
  }

  lemma NewAccountHead(t: Tables, s: State, account: Account)
    requires HeadsRelated(t.heads, s.accounts) && account.id !in s.accounts
    ensures HeadsRelated(t.heads[account.id := account.version], s.accounts[account.id := [account]])
  {
  }

  lemma NewAccountStored(t: Tables, s: State, account: Account)
    requires VersionsStored(t.accounts, s.accounts) && account.id !in s.accounts
    ensures VersionsStored(t.accounts[(account.id, account.version) := account], s.accounts[account.id := [account]])
  {
  }

  lemma NewAccountLogged(t: Tables, s: State, account: Account)
    requires VersionsLogged(t.accounts, s.accounts) && account.id !in s.accounts
    ensures VersionsLogged(t.accounts[(account.id, account.version) := account], s.accounts[account.id := [account]])
  {
    var logs, rows := s.accounts[account.id := [account]], t.accounts[(account.id, account.version) := account];
    forall a, v | (a, v) in rows ensures HasVersionRow(logs, a, v) {
      if (a, v) == (account.id, account.version) {
        assert logs[a][0].version == v;
      } else {
        assert HasVersionRow(s.accounts, a, v);
      }
    }
  }

  lemma ReservesAgree(t: Tables, s: State, ids: seq<PostingId>, rid: ReservationId)
    requires Related(t, s)
    ensures Reserve(s, ids, rid).1 == |Matching(t.live, IdSet(ids), None)|
    ensures Related(t.(live := Updated(t.live, IdSet(ids), None, Some(rid))), Reserve(s, ids, rid).0)
  {
    ReserveRefines(t, s, ids, rid);
    hide ActiveRows, HeldRows, Updated, Matching, HeadsRelated, VersionsStored, VersionsLogged, IndexRelated, Reserve;
  }

  lemma ReleasesAgree(t: Tables, s: State, ids: seq<PostingId>, rid: ReservationId)
    requires Related(t, s)
    ensures Release(s, ids, rid).1 == |Matching(t.live, IdSet(ids), Some(rid))|
    ensures Related(t.(live := Updated(t.live, IdSet(ids), Some(rid), None)), Release(s, ids, rid).0)
  {
    ReleaseRefines(t, s, ids, rid);
    hide ActiveRows, HeldRows, Updated, Matching, HeadsRelated, VersionsStored, VersionsLogged, IndexRelated, Release;
  }

  lemma AsideAgrees(t: Tables, s: State, s': State)
    requires Related(t, s) && s' == s.(books := s'.books, projections := s'.projections)
    ensures Related(t, s')
  {
    hide ActiveRows, HeldRows, HeadsRelated, VersionsStored, VersionsLogged, IndexRelated;
  }

  /** A commit answered with an internal error: a sum did not fit, or an involved account is
      missing. */
  predicate Overflowed(a: Reply) { a.OfCommit? && a.r == Err(Internal) }

  /** The two answers of one call: equal, with related states, or one of them an internal
      error that wrote nothing. */
  ghost predicate Agree(s: State, s': State, a: Reply, t: Tables, t': Tables, b: Reply) {
    || (b == a && Related(t', s'))
    || (b != a && Overflowed(a) && s' == s)
    || (b != a && Overflowed(b) && t' == t)
  }

  lemma CommitStepAgrees(digest: Digest, past: seq<State>, e: Envelope, l: Loaded, ts: i64, s': State, a: Reply, t: Tables, t': Tables, b: Reply)
    requires past != [] && History(past) && StepTo(digest, past, DoCommit(e, l, ts), s') && Related(t, past[|past| - 1])
    requires MemReplies(digest, past[|past| - 1], DoCommit(e, l, ts), s', a) && SqlReplies(digest, t, DoCommit(e, l, ts), t', b)
    ensures Agree(past[|past| - 1], s', a, t, t', b)
    ensures BalancesFit(past[|past| - 1], RequestOf(digest, e, l, ts)) ==> b == a
  {
    hide Inv, Grows, StepTo, Related, BalancesFit, SqlCommits, Commits, RequestOf, Guard, Ready, History;
    LatestInv(past);
    var s, req := past[|past| - 1], RequestOf(digest, e, l, ts);
    CommitStepReady(digest, past, e, l, ts, s');
    CommitsAgreeUnlessOverflow(t, s, req, s', a.r, t', b.r);
    if BalancesFit(s, req) { CommitsAgree(t, s, req, s', a.r, t', b.r); }
    if a.r == Err(Internal) { InternalKeeps(s, req, s', a.r); }
    if b.r == Err(Internal) { SqlInternalKeeps(t, req, t', b.r); }
  }

  /** An internal error writes nothing. */
  lemma InternalKeeps(s: State, req: CommitRequest, s': State, r: CommitResult)
    requires Commits(s, req, s', r) && r == Err(Internal)
    ensures s' == s
  {
    hide Guard, FloorHolds, FloorSafe, FloorBreached, Applied;
  }

  lemma SqlInternalKeeps(t: Tables, req: CommitRequest, t': Tables, r: CommitResult)
    requires SqlCommits(t, req, t', r) && r == Err(Internal)
    ensures t' == t
  {
    hide Guard, SqlFloorHolds, SqlFloorSafe, SqlFloorBreached, SqlApplied;
  }

  /** Each step gets the same answer from both stores and keeps them related, or one store
      finds that a sum overflows; not even that if the balances fit. */
  lemma StepAgrees(digest: Digest, past: seq<State>, step: Step, s': State, a: Reply, t: Tables, t': Tables, b: Reply)
    requires past != [] && History(past) && StepTo(digest, past, step, s') && Related(t, past[|past| - 1])
    requires MemReplies(digest, past[|past| - 1], step, s', a) && SqlReplies(digest, t, step, t', b)
    ensures Agree(past[|past| - 1], s', a, t, t', b)
    ensures (step.DoCommit? ==> BalancesFit(past[|past| - 1], RequestOf(digest, step.envelope, step.loaded, step.ts))) ==> b == a
  {
    hide Inv, Grows, StepTo, Related, BalancesFit, SqlCommits, Commits, RequestOf, History;
    hide AppendEvent, Append, CommitTransition, SqlTransition, Reserve, Release, Updated, Matching, CreateAccount, SqlCreate, Mutated;
    var s := past[|past| - 1];
    LatestInv(past);
    AccountsIn(s);
    match step
    case DoCommit(e, l, ts) => CommitStepAgrees(digest, past, e, l, ts, s', a, t, t', b);
    case DoTransition(m, base, ts) =>
      TransitionsAgree(t, s, Mutated(m, base), LedgerEvent(ts, EventFor(m, base.id, base.version + 1)));
    case DoCreateAccount(account) => CreatesAgree(t, s, account);
    case DoAppendCreated(o, ts) => EventAppended(t, s, LedgerEvent(ts, AccountCreated(o)));
    case DoReserve(ids, rid) => ReservesAgree(t, s, ids, rid);
    case DoRelease(ids, rid) => ReleasesAgree(t, s, ids, rid);
    case DoCreateBook(book) => AsideAgrees(t, s, s');
    case DoCachePoint(o, asset, p) => AsideAgrees(t, s, s');
  }

  lemma AccountsIn(s: State)
    requires Inv(s)
    ensures AccountsOk(s)
  {
  }

  // ----- whole runs -----

  /** The same calls made on both stores, each with its own answers. */
  datatype Twin = Twin(states: seq<State>, replies: seq<Reply>, tables: seq<Tables>, sqlReplies: seq<Reply>)

  ghost predicate TwinRun(digest: Digest, steps: seq<Step>, w: Twin) {
    && IsRun(digest, w.states, steps)
    && |w.tables| == |w.states| && w.tables[0] == EMPTY_TABLES && |w.replies| == |w.sqlReplies| == |steps|
    && (forall i :: 0 <= i < |steps| ==>
          && MemReplies(digest, w.states[i], steps[i], w.states[i + 1], w.replies[i])
          && SqlReplies(digest, w.tables[i], steps[i], w.tables[i + 1], w.sqlReplies[i]))
  }

  /** Every commit of the run leaves representable balances on accounts that forbid
      overdraft. */
  ghost predicate AllFit(digest: Digest, steps: seq<Step>, states: seq<State>)
    requires |states| > |steps|
  {
    forall i :: 0 <= i < |steps| && steps[i].DoCommit? ==>
      BalancesFit(states[i], RequestOf(digest, steps[i].envelope, steps[i].loaded, steps[i].ts))
  }

  /** The SQL store simulates the in-memory one over every run from empty tables: as long as
      the answers have been equal the states are related, and the answers can first differ only
      where one store answers a commit with an internal error. */
  lemma {:induction false} SqlSimulates(digest: Digest, steps: seq<Step>, w: Twin, n: nat)
    requires TwinRun(digest, steps, w) && n <= |steps| && forall i :: 0 <= i < n ==> w.sqlReplies[i] == w.replies[i]
    ensures |w.tables| == |w.states| > n && Related(w.tables[n], w.states[n])
    ensures n < |steps| ==> w.sqlReplies[n] == w.replies[n] || Overflowed(w.replies[n]) || Overflowed(w.sqlReplies[n])
  {
    hide Inv, Grows, StepTo, Related, BalancesFit, MemReplies, SqlReplies, History;
    if n == 0 {
      EmptyRelated();
    } else {
      SqlSimulates(digest, steps, w, n - 1);
      TwinStep(digest, steps, w, n - 1);
    }
    if n < |steps| { TwinStep(digest, steps, w, n); }
  }

  lemma TwinSizes(digest: Digest, steps: seq<Step>, w: Twin)
    requires TwinRun(digest, steps, w)
    ensures |w.tables| == |w.states| == |steps| + 1 && |w.replies| == |w.sqlReplies| == |steps|
  {
  }

  lemma TwinStep(digest: Digest, steps: seq<Step>, w: Twin, n: nat)
    requires TwinRun(digest, steps, w) && |w.tables| == |w.states| && n < |steps| && n + 1 < |w.states| && Related(w.tables[n], w.states[n])
    ensures Agree(w.states[n], w.states[n + 1], w.replies[n], w.tables[n], w.tables[n + 1], w.sqlReplies[n])
    ensures (steps[n].DoCommit? ==> BalancesFit(w.states[n], RequestOf(digest, steps[n].envelope, steps[n].loaded, steps[n].ts))) ==>
      w.sqlReplies[n] == w.replies[n]
  {
    hide Inv, Grows, StepTo, Related, BalancesFit, MemReplies, SqlReplies, History, Agree;
    RunHistory(digest, w.states, steps, n);
    var past := w.states[..n + 1];
    assert past[|past| - 1] == w.states[n];
    assert StepTo(digest, past, steps[n], w.states[n + 1]);
    StepAgrees(digest, past, steps[n], w.states[n + 1], w.replies[n], w.tables[n], w.tables[n + 1], w.sqlReplies[n]);
  }

  /** And if every commit leaves representable balances, all answers are equal. */
  lemma {:induction false} FittingRunsAgree(digest: Digest, steps: seq<Step>, w: Twin, n: nat)
    requires TwinRun(digest, steps, w) && |w.states| > |steps| && AllFit(digest, steps, w.states) && n <= |steps|
    ensures Related(w.tables[n], w.states[n])
    ensures forall i :: 0 <= i < n ==> w.sqlReplies[i] == w.replies[i]
  {
    hide TwinRun, Related, BalancesFit, Agree, RequestOf, Overflowed;
    if n > 0 {
      FittingRunsAgree(digest, steps, w, n - 1);
      TwinSizes(digest, steps, w);
      TwinStep(digest, steps, w, n - 1);
    }
    SqlSimulates(digest, steps, w, n);
  }

  lemma EmptyRelated()
    ensures Related(EMPTY_TABLES, EMPTY)
  {
  }
}

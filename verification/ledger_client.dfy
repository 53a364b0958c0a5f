/** The ledger over the in-memory store, step by step: load, plan, commit, reverse, resolve
    and `run_movements` (crates/kuatia/src/ledger/commit.rs, crates/kuatia/src/saga.rs).
    Each method is proved to do what its relation says. */
module LedgerClient {
  import opened Wrappers
  import opened Domain
  import opened Amounts
  import opened Store
  import opened Events
  import opened MemStore
  import opened Canonical
  import opened Validate
  import opened Runs
  import opened Resolution
  import opened LedgerOps
  import opened Intents
  import opened Saga
  import opened LedgerTheorems
  import opened Filings
  import Balance

  datatype LifecycleError =
    | NoSuchAccount(account: AccountId)
    | AlreadyRegistered(account: AccountId)
    | AccountAlreadyClosed(account: AccountId)
    | AccountNotEmpty(account: AccountId)
    | VersionOverflow

  /** Some live posting, active or reserved, belongs to the account. */
  ghost predicate HoldsPostings(s: State, a: AccountId) {
    var live := Live(s);
    exists id :: id in live && live[id].owner == a
  }

  /** The account's head was open and is now its mutation; nothing else but the event log
      changed. */
  ghost predicate Transitioned(s: State, a: AccountId, m: Lifecycle, ts: i64, s': State) {
    && Head(s, a).Some? && !Head(s, a).value.IsClosed() && Head(s, a).value.version + 1 < TWO64
    && var next := Mutated(m, Head(s, a).value);
      && Head(s', a) == Some(next)
      && s' == CommitTransition(s, next, LedgerEvent(ts, EventFor(m, a, next.version))).0
      && s' == s.(accounts := s.accounts[a := s.accounts[a] + [next]], events := s'.events)
  }

  /** Why an account cannot change its state, and only why. */
  function TransitionFails(s: State, a: AccountId): Option<LifecycleError> {
    if Head(s, a).None? then Some(NoSuchAccount(a))
    else if Head(s, a).value.IsClosed() then Some(AccountAlreadyClosed(a))
    else if Head(s, a).value.version + 1 == TWO64 then Some(VersionOverflow)
    else None
  }

  class Ledger {
    const store: InMemoryStore
    const digest: Digest

    constructor (store: InMemoryStore, digest: Digest)
      ensures this.store == store && this.digest == digest
    {
      this.store, this.digest := store, digest;
    }

    method ResolveSnapshots(ids: seq<AccountId>) returns (r: Option<seq<AccountSnapshotId>>)
      ensures r == SnapshotsOf(digest, store.View(), ids)
    {
      var snaps: seq<AccountSnapshotId> := [];
      for i := 0 to |ids|
        invariant |snaps| == i
        invariant forall j :: 0 <= j < i ==> Head(store.View(), ids[j]).Some?
        invariant forall j :: 0 <= j < i ==> snaps[j] == AccountSnapshotId(ids[j], AccountHash(digest, Head(store.View(), ids[j]).value))
      {
        var account := Head(store.View(), ids[i]);
        if account.None? { return None; }
        snaps := snaps + [AccountSnapshotId(ids[i], AccountHash(digest, account.value))];
      }
      assert snaps == SnapshotsOf(digest, store.View(), ids).value;
      return Some(snaps);
    }

    /** `get_postings`. */
    method GetPostings(ids: seq<PostingId>) returns (r: Option<seq<Posting>>)
      ensures r.Some? ==> PostingsRead(store.View(), ids, r.value)
      ensures r.None? ==> exists id :: id in ids && id !in store.immutable
    {
      var ps: seq<Posting> := [];
      for i := 0 to |ids|
        invariant |ps| == i && forall j :: 0 <= j < i ==> ids[j] in store.immutable && ps[j] == store.immutable[ids[j]]
      {
        if ids[i] !in store.immutable {
          assert ids[i] in ids;
          return None;
        }
        ps := ps + [store.immutable[ids[i]]];
      }
      return Some(ps);
    }

    /** `get_accounts`, keyed by id. */
    method GetAccounts(ids: seq<AccountId>) returns (r: Option<map<AccountId, Account>>)
      ensures r.Some? ==> r.value.Keys == (set a | a in ids) && forall a :: a in r.value ==> Head(store.View(), a) == Some(r.value[a])
      ensures r.None? ==> exists a :: a in ids && Head(store.View(), a).None?
    {
      var accounts: map<AccountId, Account> := map[];
      for i := 0 to |ids|
        invariant accounts.Keys == (set j | 0 <= j < i :: ids[j])
        invariant forall a :: a in accounts ==> Head(store.View(), a) == Some(accounts[a])
      {
        var account := Head(store.View(), ids[i]);
        if account.None? {
          assert ids[i] in ids;
          return None;
        }
        accounts := accounts[ids[i] := account.value];
      }
      return Some(accounts);
    }

    method GetBalances(keys: seq<BalanceKey>) returns (r: Option<map<BalanceKey, Cent>>)
      ensures r.Some? ==> r.value.Keys == (set key | key in keys) && forall key :: key in r.value ==> r.value[key] == LiveSum(store.View(), Holding(key))
      ensures r.None? ==> exists key :: key in keys && Balance.Unsummable(store.View(), key.0, key.1)
    {
      var balances: map<BalanceKey, Cent> := map[];
      for i := 0 to |keys|
        invariant balances.Keys == (set j | 0 <= j < i :: keys[j])
        invariant forall key :: key in balances ==> balances[key] == LiveSum(store.View(), Holding(key))
      {
        var balance := Balance.ComputeBalance(store.View(), keys[i].0, keys[i].1);
        if balance.None? {
          assert keys[i] in keys;
          return None;
        }
        balances := balances[keys[i] := balance.value];
      }
      return Some(balances);
    }

    /** Everything validation will read, from the store as it is now. */
    method Load(e: Envelope) returns (r: Result<Loaded, LedgerError>)
      ensures r.Ok? ==> LoadedNow(store.View(), e, r.value)
      ensures r.Err? ==> LoadMayFail(store.View(), e, r.error)
    {
      var consumed := GetPostings(e.consumes);
      if consumed.None? { return Err(StoreFailed); }
      var required := Required(e, consumed.value);
      var accounts := GetAccounts(required.accounts);
      if accounts.None? {
        assert ReadMayFail(store.View(), e, consumed.value);
        return Err(StoreFailed);
      }
      var balances := GetBalances(required.balances);
      if balances.None? {
        assert ReadMayFail(store.View(), e, consumed.value);
        return Err(StoreFailed);
      }
      if e.book !in store.books && e.book != DEFAULT_BOOK { return Err(BookNotFound(e.book)); }
      var book := if e.book in store.books then Some(store.books[e.book]) else None;
      var l := Loaded(consumed.value, accounts.value, balances.value, book);
      LoadedAt(store.View(), e, l);
      return Ok(l);
    }

    static lemma LoadedAt(s: State, e: Envelope, l: Loaded)
      requires PostingsRead(s, e.consumes, l.consumed)
      requires l.accounts.Keys == (set a | a in Required(e, l.consumed).accounts)
      requires forall a :: a in l.accounts ==> Head(s, a) == Some(l.accounts[a])
      requires l.balances.Keys == (set key | key in Required(e, l.consumed).balances)
      requires forall key :: key in l.balances ==> l.balances[key] == LiveSum(s, Holding(key))
      requires l.book.Some? ==> e.book in s.books && s.books[e.book] == l.book.value
      ensures LoadedFrom([s], e, l)
    {
      hide Required, LiveSum;
      var past := [s];
      assert past[0] == s;
      forall a | a in l.accounts ensures exists q :: 0 <= q < |past| && Head(past[q], a) == Some(l.accounts[a]) {
        assert Head(past[0], a) == Some(l.accounts[a]);
      }
      forall key | key in l.balances ensures exists q :: 0 <= q < |past| && l.balances[key] == LiveSum(past[q], Holding(key)) {
        assert l.balances[key] == LiveSum(past[0], Holding(key));
      }
    }

    method CommitPinned(e: Envelope, ts: i64) returns (r: Answer)
      modifies store
      ensures CommitsPinned(digest, old(store.View()), e, ts, store.View(), r)
    {
      ghost var s := store.View();
      hide LoadMayFail, LoadedNow, Acceptable, Justified, Commits;
      var tid := EnvelopeIdOf(digest, e);
      if tid in store.transfers { return Ok(store.transfers[tid].receipt); }
      var loaded := Load(e);
      if loaded.Err? { return Err(loaded.error); }
      var l := loaded.value;
      var plan := ValidateAndPlan(digest, InputOf(e, l));
      if plan.Err? {
        assert Refused(digest, s, e, l, plan.error);
        return Err(Invalid(plan.error));
      }
      var out := store.CommitEnvelope(RequestOf(digest, e, l, ts));
      assert Submitted(digest, s, e, l, ts, store.View(), out);
      return AnswerOf(out);
    }

    method CommitEnvelope(e: Envelope, ts: i64) returns (r: Answer)
      modifies store
      ensures CommitsEnvelope(digest, old(store.View()), e, ts, store.View(), r)
      ensures Inv(old(store.View())) && r.Ok? && r.value.transferId !in old(store.transfers) ==>
        NewlyFiled(digest, old(store.View()), e, ts, store.View(), r.value.transferId)
    {
      ghost var s := store.View();
      hide CommitsPinned, Inv, NewlyFiled;
      var p := e;
      if e.snapshots == [] {
        var snaps := ResolveSnapshots(CreateOwners(e));
        if snaps.None? { return Err(StoreFailed); }
        p := e.(snapshots := snaps.value);
      }
      r := CommitPinned(p, ts);
      if Inv(s) && r.Ok? && r.value.transferId !in s.transfers { EnvelopeFiles(digest, s, e, ts, store.View(), r.value); }
    }

    method Reverse(t: EnvelopeId, ts: i64) returns (r: Answer)
      modifies store
      ensures Reverses(digest, old(store.View()), t, ts, store.View(), r)
      ensures Inv(old(store.View())) && r.Ok? && r.value.transferId !in old(store.transfers) ==>
        ReversalFiled(digest, old(store.View()), t, ts, store.View(), r.value.transferId)
    {
      ghost var s := store.View();
      hide CommitsEnvelope, Inv, NewlyFiled, ReversalFiled;
      if t !in store.transfers { return Err(TransferNotFound(t)); }
      var record := store.transfers[t];
      var consumed := GetPostings(record.envelope.consumes);
      if consumed.None? { return Err(StoreFailed); }
      var ps := consumed.value;
      var back := seq(|ps|, i requires 0 <= i < |ps| => NewPosting(ps[i].owner, ps[i].asset, ps[i].value, None));
      var e := Envelope(CreatedIds(record.receipt.transferId, |record.envelope.creates|), back, [], record.envelope.book, record.envelope.metadata);
      assert back == Returned(store.immutable, record.envelope.consumes);
      r := CommitEnvelope(e, ts);
      assert Reverses(digest, s, t, ts, store.View(), r);
      if Inv(s) && r.Ok? && r.value.transferId !in s.transfers { ReversalFiles(digest, s, t, ts, store.View(), r.value); }
    }

    // ----- account lifecycle -----

    /** One new version with the mutation applied, and its event.  Run without interference
        it lands on the head it read, so success means the head is the mutated account and
        failure that nothing changed. */
    method Transition(a: AccountId, m: Lifecycle, ts: i64) returns (r: Option<LifecycleError>)
      requires AccountsOk(store.View())
      modifies store
      ensures r == TransitionFails(old(store.View()), a)
      ensures r.Some? ==> store.View() == old(store.View())
      ensures r.None? ==> Transitioned(old(store.View()), a, m, ts, store.View())
    {
      var found := Head(store.View(), a);
      if found.None? { return Some(NoSuchAccount(a)); }
      var current := found.value;
      if current.IsClosed() { return Some(AccountAlreadyClosed(a)); }
      if current.version + 1 >= TWO64 { return Some(VersionOverflow); }
      assert LogOk(a, store.accounts[a]);
      var next := Mutated(m, current);
      var outcome := store.CommitTransition(next, LedgerEvent(ts, EventFor(m, a, next.version)));
      assert outcome == Ok(TransitionApplied);
      return None;
    }

    /** `has_live_postings`. */
    method HasLivePostings(a: AccountId) returns (r: bool)
      ensures r <==> HoldsPostings(store.View(), a)
    {
      var live := Live(store.View());
      r := exists id :: id in live && live[id].owner == a;
    }

    /** The event of the new version, at the time of the call; the log held none for it. */
    static lemma EventAppended(s: State, a: AccountId, m: Lifecycle, ts: i64, s': State)
      requires Inv(s) && Transitioned(s, a, m, ts, s')
      ensures s'.events == s.events + [LedgerEvent(ts, EventFor(m, a, Head(s, a).value.version + 1))]
    {
      var event := LedgerEvent(ts, EventFor(m, a, Head(s, a).value.version + 1));
      AppendBySubject(s.events, event);
      VersionUnmentioned(s, a, Head(s, a).value.version + 1);
      hide Inv, Append, Mentions;
    }

    /** No event is about a version beyond the head. */
    static lemma VersionUnmentioned(s: State, a: AccountId, v: u64)
      requires Inv(s) && Head(s, a).Some? && v == Head(s, a).value.version + 1
      ensures !Mentions(s.events, OfVersion(a, v))
    {
      assert LogOk(a, s.accounts[a]) && EventsOk(s);
    }

    /** Success means the account is frozen and says so in the log. */
    method Freeze(a: AccountId, ts: i64) returns (r: Option<LifecycleError>)
      requires AccountsOk(store.View())
      modifies store
      ensures r == TransitionFails(old(store.View()), a)
      ensures r.Some? ==> store.View() == old(store.View())
      ensures r.None? ==> Transitioned(old(store.View()), a, Lifecycle.Freeze, ts, store.View())
      ensures r.None? ==> Follows(Head(old(store.View()), a).value, Head(store.View(), a).value)
      ensures r.None? ==> Head(store.View(), a).value.IsFrozen() && !Head(store.View(), a).value.IsClosed()
      ensures r.None? && Inv(old(store.View())) ==>
        store.events == old(store.events) + [LedgerEvent(ts, EventKind.AccountFrozen(a, Head(store.View(), a).value.version))]
    {
      ghost var s := store.View();
      r := Transition(a, Lifecycle.Freeze, ts);
      if r.None? && Inv(s) { EventAppended(s, a, Lifecycle.Freeze, ts, store.View()); }
      hide Inv, AccountsOk, CommitTransition;
    }

    method Unfreeze(a: AccountId, ts: i64) returns (r: Option<LifecycleError>)
      requires AccountsOk(store.View())
      modifies store
      ensures r == TransitionFails(old(store.View()), a)
      ensures r.Some? ==> store.View() == old(store.View())
      ensures r.None? ==> Transitioned(old(store.View()), a, Lifecycle.Unfreeze, ts, store.View())
      ensures r.None? ==> Follows(Head(old(store.View()), a).value, Head(store.View(), a).value)
      ensures r.None? ==> !Head(store.View(), a).value.IsFrozen() && !Head(store.View(), a).value.IsClosed()
      ensures r.None? && Inv(old(store.View())) ==>
        store.events == old(store.events) + [LedgerEvent(ts, EventKind.AccountUnfrozen(a, Head(store.View(), a).value.version))]
    {
      ghost var s := store.View();
      r := Transition(a, Lifecycle.Unfreeze, ts);
      if r.None? && Inv(s) { EventAppended(s, a, Lifecycle.Unfreeze, ts, store.View()); }
      hide Inv, AccountsOk, CommitTransition;
    }

    /** Success means the account is closed and was empty; an account that holds a posting is
        refused before anything else is looked at. */
    method Close(a: AccountId, ts: i64) returns (r: Option<LifecycleError>)
      requires AccountsOk(store.View())
      modifies store
      ensures r == if HoldsPostings(old(store.View()), a) then Some(AccountNotEmpty(a)) else TransitionFails(old(store.View()), a)
      ensures r.Some? ==> store.View() == old(store.View())
      ensures r.None? ==> Transitioned(old(store.View()), a, Lifecycle.Close, ts, store.View())
      ensures r.None? ==> Follows(Head(old(store.View()), a).value, Head(store.View(), a).value) && !Head(store.View(), a).value.IsFrozen()
      ensures r.None? ==> ClosedIn(store.View(), a) && !HoldsPostings(store.View(), a)
      ensures r.None? && Inv(old(store.View())) ==>
        store.events == old(store.events) + [LedgerEvent(ts, EventKind.AccountClosed(a, Head(store.View(), a).value.version))]
    {
      ghost var s := store.View();
      var busy := HasLivePostings(a);
      if busy { return Some(AccountNotEmpty(a)); }
      ghost var live := Live(store.View());
      r := Transition(a, Lifecycle.Close, ts);
      assert Live(store.View()) == live;
      if r.None? && Inv(s) { EventAppended(s, a, Lifecycle.Close, ts, store.View()); }
      hide Inv, AccountsOk, CommitTransition, Live;
    }

    method CreateAccount(account: Account, ts: i64) returns (r: Option<LifecycleError>)
      modifies store
      ensures r.Some? <==> account.id in old(store.accounts)
      ensures r.Some? ==> store.View() == old(store.View())
      ensures r.None? ==> Head(store.View(), account.id) == Some(account)
      ensures r.None? ==> store.View() == AppendEvent(Store.CreateAccount(old(store.View()), account).0, LedgerEvent(ts, AccountCreated(account.id)))
    {
      var created := store.CreateAccount(account);
      if created == 0 { return Some(AlreadyRegistered(account.id)); }
      store.AppendEvent(LedgerEvent(ts, AccountCreated(account.id)));
      return None;
    }

    // ----- resolve and commit -----

    ghost predicate Keyed()
      reads store
    {
      forall id :: id in store.active ==> store.active[id].id == id
    }

    /** `get_postings_by_account` over the active rows. */
    method ListActive(k: Key) returns (ps: seq<Posting>)
      requires Keyed()
      ensures Offers(store.View(), k, ps)
    {
      ps := [];
      var todo := store.active.Keys;
      while todo != {}
        invariant todo <= store.active.Keys
        invariant Distinct(ps)
        invariant forall p :: p in ps <==> p.id in store.active && p.id !in todo && store.active[p.id] == p && Key(p.owner, p.asset) == k
        decreases |todo|
      {
        var id :| id in todo;
        todo := todo - {id};
        var p := store.active[id];
        if Key(p.owner, p.asset) == k {
          assert p !in ps;
          ps := ps + [p];
        }
      }
    }

    method LoadIntent(debits: seq<Debit>) returns (r: Option<(Availability, Accounts)>)
      requires Keyed()
      ensures r.Some? ==> forall creates :: IntentLoaded(store.View(), MovementDraft(creates, debits), r.value.0, r.value.1)
      ensures r.None? ==> exists i :: 0 <= i < |debits| && Head(store.View(), debits[i].key.account).None?
    {
      var av: Availability, accounts: Accounts := map[], map[];
      for i := 0 to |debits|
        invariant av.Keys == set j | 0 <= j < i :: debits[j].key
        invariant forall k :: k in av ==> Offers(store.View(), k, av[k])
        invariant accounts.Keys == set j | 0 <= j < i :: debits[j].key.account
        invariant forall a :: a in accounts ==> Head(store.View(), a) == Some(accounts[a])
      {
        var k := debits[i].key;
        var ps := ListActive(k);
        av := av[k := ps];
        if k.account !in accounts {
          var account := Head(store.View(), k.account);
          if account.None? { return None; }
          accounts := accounts[k.account := account.value];
        }
      }
      return Some((av, accounts));
    }

    method Resolve(t: Transfer) returns (r: Result<Envelope, LedgerError>)
      requires Keyed()
      ensures r.Ok? ==> ResolvesTo(digest, store.View(), t, r.value)
      ensures r.Err? ==> ResolutionFails(store.View(), t, r.error)
    {
      var drafted := DraftMovements(t.movements);
      if drafted.Err? { return Err(AmountOverflow); }
      var draft := drafted.value;
      var loaded := LoadIntent(draft.debits);
      if loaded.None? {
        DebitorMissing(store.View(), t, draft);
        return Err(StoreFailed);
      }
      var (av, accounts) := loaded.value;
      assert IntentLoaded(store.View(), MovementDraft(draft.creates, draft.debits), av, accounts);
      var resolved := ResolveEnvelope(t, draft, av, accounts);
      if resolved.Err? {
        assert RefusesIntent(store.View(), t, draft, av, accounts, resolved.error);
        return Err(ResolveFailed(resolved.error));
      }
      var bare := resolved.value;
      var snaps := ResolveSnapshots(CreateOwners(bare));
      if snaps.None? {
        OwnerMissing(digest, store.View(), t, draft, av, accounts, bare);
        return Err(StoreFailed);
      }
      var e := bare.(snapshots := snaps.value);
      assert e.(snapshots := []) == bare && CreateOwners(e) == CreateOwners(bare);
      return Ok(e);
    }

    static lemma {:induction false} DebitSource(ms: seq<Movement>, k: Key)
      requires NetDebit(ms, k) != 0
      ensures exists i :: 0 <= i < |ms| && Source(ms[i]) == k
    {
      if forall i :: 0 <= i < |ms| ==> Source(ms[i]) != k {
        NoDebitElsewhere(ms, k);
      }
    }

    static lemma DebitorMissing(s: State, t: Transfer, draft: MovementDraft)
      requires DraftOf(t.movements, draft) && exists i :: 0 <= i < |draft.debits| && Head(s, draft.debits[i].key.account).None?
      ensures exists i :: 0 <= i < |t.movements| && !BothExist(s, t.movements[i])
    {
      hide NetDebit;
      var i :| 0 <= i < |draft.debits| && Head(s, draft.debits[i].key.account).None?;
      DebitSource(t.movements, draft.debits[i].key);
      var j :| 0 <= j < |t.movements| && Source(t.movements[j]) == draft.debits[i].key;
      assert !BothExist(s, t.movements[j]);
    }

    static lemma {:induction false} CoverOwners(ds: seq<Debit>, av: Availability, accounts: Accounts)
      requires CoverAll(ds, av, accounts).Ok?
      ensures forall p :: p in CoverAll(ds, av, accounts).value.created ==> exists i :: 0 <= i < |ds| && ds[i].key.account == p.owner
    {
      if ds != [] {
        var front, d := ds[..|ds| - 1], ds[|ds| - 1];
        CoverOwners(front, av, accounts);
        var before, now := CoverAll(front, av, accounts).value.created, CoverIn(d, av, accounts).value.created;
        assert forall p :: p in now ==> p.owner == d.key.account;
        hide CoverIn, Cover;
        forall p | p in before + now ensures exists i :: 0 <= i < |ds| && ds[i].key.account == p.owner {
          if p in before {
            var i :| 0 <= i < |front| && front[i].key.account == p.owner;
            assert ds[i] == front[i];
          } else {
            assert ds[|ds| - 1].key.account == p.owner;
          }
        }
      }
    }

    static lemma ResolvedCreates(t: Transfer, draft: MovementDraft, av: Availability, accounts: Accounts, e: Envelope) returns (created: seq<NewPosting>)
      requires Resolved(t, draft, av, accounts) == Ok(e)
      ensures CoverAll(draft.debits, av, accounts).Ok? && created == CoverAll(draft.debits, av, accounts).value.created
      ensures e.creates == draft.creates + created
    {
      created := CoverAll(draft.debits, av, accounts).value.created;
    }

    static lemma HeadlessOwner(digest: Digest, s: State, e: Envelope) returns (i: nat)
      requires SnapshotsOf(digest, s, CreateOwners(e)).None?
      ensures i < |e.creates| && Head(s, e.creates[i].owner).None?
    {
      var owners := CreateOwners(e);
      var k :| 0 <= k < |owners| && Head(s, owners[k]).None?;
      assert owners[k] in owners;
      var walk := seq(|e.creates|, i requires 0 <= i < |e.creates| => e.creates[i].owner);
      assert owners[k] in walk;
      i :| 0 <= i < |e.creates| && walk[i] == owners[k];
    }

    static lemma OwnerMissing(digest: Digest, s: State, t: Transfer, draft: MovementDraft, av: Availability, accounts: Accounts, e: Envelope)
      requires DraftOf(t.movements, draft) && IntentLoaded(s, draft, av, accounts) && Resolved(t, draft, av, accounts) == Ok(e)
      requires SnapshotsOf(digest, s, CreateOwners(e)).None?
      ensures exists i :: 0 <= i < |t.movements| && !BothExist(s, t.movements[i])
    {
      hide CoverAll, Offers, NetDebit, Resolved, SnapshotsOf;
      var created := ResolvedCreates(t, draft, av, accounts, e);
      CoverOwners(draft.debits, av, accounts);
      forall p | p in created ensures Head(s, p.owner).Some? {
        var j :| 0 <= j < |draft.debits| && draft.debits[j].key.account == p.owner;
        assert draft.debits[j].key.account in accounts;
      }
      assert forall i :: |draft.creates| <= i < |e.creates| ==> e.creates[i] in created;
      var i := HeadlessOwner(digest, s, e);
      assert e.creates[i] == draft.creates[i] == Credit(t.movements[i]);
      assert !BothExist(s, t.movements[i]);
    }

    method Commit(t: Transfer, ts: i64) returns (r: Answer)
      requires Keyed()
      modifies store
      ensures CommitsTransfer(digest, old(store.View()), t, ts, store.View(), r)
      ensures Inv(old(store.View())) && r.Ok? && r.value.transferId !in old(store.transfers) ==>
        IntentFiled(digest, t, ts, store.View(), r.value.transferId)
    {
      ghost var s := store.View();
      hide CommitsEnvelope, ResolvesTo, ResolutionFails, Inv, NewlyFiled, IntentFiled;
      var e := Resolve(t);
      if e.Err? { return Err(e.error); }
      r := CommitEnvelope(e.value, ts);
      assert CommitsTransfer(digest, s, t, ts, store.View(), r);
      if Inv(s) && r.Ok? && r.value.transferId !in s.transfers { IntentFiles(digest, s, t, ts, store.View(), r.value); }
    }

    // ----- run_movements -----

    static lemma LegKeeps(digest: Digest, s: State, t: Transfer, ts: i64, s': State, r: Answer)
      requires Inv(s) && |t.movements| <= 2 && CommitsTransfer(digest, s, t, ts, s', r)
      ensures Inv(s') && Grows(s, s') && (r.Err? ==> s' == s)
    {
      hide Inv, Grows, CommitsTransfer, Small;
      FewMovements(t);
      SmallIndexable(digest, s, t);
      TransferKeeps(digest, s, t, ts, s', r);
    }

    /** Commits each leg in order; on the first failed commit, reverses the committed ones
        last-first.  The ghost result lists the states the two loops went through. */
    method RunMovements(legs: seq<Leg>, clock: nat -> i64) returns (r: Result<seq<Receipt>, LedgerError>, ghost tr: Trace)
      requires Inv(store.View())
      modifies store
      ensures RunsLegs(digest, old(store.View()), legs, tr, store.View(), r)
    {
      hide Inv, Grows, CommitsTransfer, Reverses;
      var receipts: seq<Receipt> := [];
      ghost var forward := [store.View()];
      for k := 0 to |legs|
        invariant |receipts| == k && Forward(digest, legs, forward, receipts)
        invariant forward[0] == old(store.View()) && forward[k] == store.View() && Inv(store.View())
      {
        ghost var s := store.View();
        var built := Build(legs[k]);
        if built.Err? {
          return Err(built.error), Trace(forward, receipts, [s]);
        }
        RowsKeyed();
        var answer := Commit(built.value, clock(k));
        LegKeeps(digest, s, built.value, clock(k), store.View(), answer);
        if answer.Err? {
          assert FailsToCommit(digest, s, built.value, answer.error);
          ghost var backward;
          r, backward := Compensate(receipts, answer.error, clock);
          return r, Trace(forward, receipts, backward);
        }
        assert LegCommitted(digest, s, legs[k], store.View(), answer.value);
        receipts := receipts + [answer.value];
        forward := forward + [store.View()];
      }
      return Ok(receipts), Trace(forward, receipts, [store.View()]);
    }

    lemma RowsKeyed()
      requires Inv(store.View())
      ensures Keyed()
    {
    }

    method Compensate(receipts: seq<Receipt>, original: LedgerError, clock: nat -> i64)
        returns (r: Result<seq<Receipt>, LedgerError>, ghost backward: seq<State>)
      modifies store
      ensures Backward(digest, backward, receipts) && backward[0] == old(store.View()) && r.Err?
      ensures var m := |backward| - 1;
        || (m == |receipts| && store.View() == backward[m] && r.error == original)
        || (m < |receipts| && r.error.CompensationFailed? && r.error.original == original
            && FailsToReverse(digest, backward[m], receipts[|receipts| - 1 - m].transferId, store.View(), r.error.compensation))
    {
      hide Reverses;
      backward := [store.View()];
      for m := 0 to |receipts|
        invariant |backward| == m + 1 && Backward(digest, backward, receipts)
        invariant backward[0] == old(store.View()) && backward[m] == store.View()
      {
        ghost var s := store.View();
        var t := receipts[|receipts| - 1 - m].transferId;
        var answer := Reverse(t, clock(m));
        if answer.Err? {
          assert FailsToReverse(digest, s, t, store.View(), answer.error);
          return Err(CompensationFailed(original, answer.error)), backward;
        }
        assert ReversedTo(digest, s, t, store.View());
        backward := backward + [store.View()];
      }
      return Err(original), backward;
    }
  }
}

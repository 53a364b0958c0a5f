/** `resolve` and `commit`: a transfer intent is turned into an envelope from the current
    state and committed (crates/kuatia/src/ledger/commit.rs). */
module Intents {
  import opened Wrappers
  import opened Domain
  import opened Amounts
  import opened Store
  import opened Canonical
  import opened Runs
  import opened RunProofs
  import opened Resolution
  import opened ResolutionTheorems
  import opened LedgerOps

  /** `get_postings_by_account` over the active rows of one holding, in some order. */
  ghost predicate Offers(s: State, k: Key, ps: seq<Posting>) {
    && Distinct(ps)
    && forall p :: p in ps <==> p.id in s.active && s.active[p.id] == p && Key(p.owner, p.asset) == k
  }

  ghost predicate IntentLoaded(s: State, draft: MovementDraft, av: Availability, accounts: Accounts) {
    && av.Keys == (set i | 0 <= i < |draft.debits| :: draft.debits[i].key)
    && (forall k :: k in av ==> Offers(s, k, av[k]))
    && accounts.Keys == (set i | 0 <= i < |draft.debits| :: draft.debits[i].key.account)
    && (forall a :: a in accounts ==> Head(s, a) == Some(accounts[a]))
  }

  /** The envelope resolution makes of `t` from what `s` holds, snapshots pinned. */
  ghost predicate ResolvesTo(digest: Digest, s: State, t: Transfer, e: Envelope) {
    exists draft, av, accounts ::
      && DraftOf(t.movements, draft) && IntentLoaded(s, draft, av, accounts)
      && Resolved(t, draft, av, accounts) == Ok(e.(snapshots := []))
      && SnapshotsOf(digest, s, CreateOwners(e)) == Some(e.snapshots)
  }

  /** Resolution refuses `t`, or an account it needs does not exist. */
  ghost predicate ResolutionFails(s: State, t: Transfer, error: LedgerError) {
    if DraftOverflows(t.movements) then error == AmountOverflow
    else
      || (error == StoreFailed && exists i :: 0 <= i < |t.movements| && !BothExist(s, t.movements[i]))
      || (error.ResolveFailed? && exists draft, av, accounts :: RefusesIntent(s, t, draft, av, accounts, error.error))
  }

  predicate BothExist(s: State, m: Movement) { Head(s, m.from).Some? && Head(s, m.to).Some? }

  ghost predicate RefusesIntent(s: State, t: Transfer, draft: MovementDraft, av: Availability, accounts: Accounts, e: ResolveError) {
    DraftOf(t.movements, draft) && IntentLoaded(s, draft, av, accounts) && Resolved(t, draft, av, accounts) == Err(e)
  }

  ghost predicate CommitsTransfer(digest: Digest, s: State, t: Transfer, ts: i64, s': State, r: Answer) {
    || (s' == s && r.Err? && ResolutionFails(s, t, r.error))
    || exists e :: ResolvesTo(digest, s, t, e) && CommitsEnvelope(digest, s, e, ts, s', r)
  }

  /** The debited holdings. */
  function Payers(ms: seq<Movement>): set<Key> { set i | 0 <= i < |ms| && NetDebit(ms, Source(ms[i])) > 0 :: Source(ms[i]) }

  /** One posting per movement and at most one per debited holding: few enough for 16-bit
      posting indices. */
  predicate Small(t: Transfer) { |t.movements| + |Payers(t.movements)| <= TWO16 }

  /** What the intent resolves to has no more creates than there are posting indices. */
  ghost predicate Indexable(digest: Digest, s: State, t: Transfer) {
    forall e :: ResolvesTo(digest, s, t, e) ==> |e.creates| <= TWO16
  }

  /** Half as many movements are always few enough. */
  lemma FewMovements(t: Transfer)
    requires |t.movements| <= 0x8000
    ensures Small(t)
  {
    hide NetDebit;
    PayersFewer(t.movements, Payers(t.movements));
  }

  lemma {:induction false} PayersFewer(ms: seq<Movement>, keys: set<Key>)
    requires forall k :: k in keys ==> exists i :: 0 <= i < |ms| && Source(ms[i]) == k
    ensures |keys| <= |ms|
  {
    if ms == [] {
      assert keys == {};
    } else {
      var front, last := ms[..|ms| - 1], Source(ms[|ms| - 1]);
      forall k | k in keys - {last} ensures exists i :: 0 <= i < |front| && Source(front[i]) == k {
        var i :| 0 <= i < |ms| && Source(ms[i]) == k;
        assert front[i] == ms[i];
      }
      PayersFewer(front, keys - {last});
    }
  }

  /** The draft has one debit per payer. */
  lemma DebitsArePayers(ms: seq<Movement>, draft: MovementDraft)
    requires DraftOf(ms, draft)
    ensures |draft.debits| <= |Payers(ms)|
  {
    DraftHolder(ms, draft, Key(AccountId(0, 0), 0));
    DebitKeysSize(draft.debits);
    forall k | k in DebitKeys(draft.debits) ensures k in Payers(ms) {
      assert NetDebit(ms, k) > 0;
      if forall i :: 0 <= i < |ms| ==> Source(ms[i]) != k { NoDebitElsewhere(ms, k); }
    }
    hide NetDebit;
    FewerOf(DebitKeys(draft.debits), Payers(ms));
  }

  lemma {:induction false} FewerOf(a: set<Key>, b: set<Key>)
    requires a <= b
    ensures |a| <= |b|
  {
    assert b == a + (b - a);
  }

  lemma {:induction false} DebitKeysSize(ds: seq<Debit>)
    requires DistinctKeys(ds)
    ensures |DebitKeys(ds)| == |ds|
  {
    if ds != [] {
      DebitKeysPush(ds);
      DebitKeysSize(ds[..|ds| - 1]);
    } else {
      assert DebitKeys(ds) == {};
    }
  }

  lemma {:induction false} CoverAllCreates(ds: seq<Debit>, av: Availability, accounts: Accounts)
    requires CoverAll(ds, av, accounts).Ok?
    ensures |CoverAll(ds, av, accounts).value.created| <= |ds|
  {
    if ds != [] {
      var d := ds[|ds| - 1];
      CoverAllCreates(ds[..|ds| - 1], av, accounts);
      CoverValue(d, Available(av, d.key), MayOverdraw(accounts, d.key.account));
    }
  }

  /** The rows on offer are rows of the posting table. */
  lemma LoadedOffered(s: State, draft: MovementDraft, av: Availability, accounts: Accounts)
    requires TablesOk(s) && IntentLoaded(s, draft, av, accounts)
    ensures Offered(av, s.immutable)
  {
    forall k, p | k in av && p in av[k] ensures p.id in s.immutable && s.immutable[p.id] == p && Key(p.owner, p.asset) == k {
      assert Offers(s, k, av[k]);
    }
    forall k | k in av ensures Distinct(av[k]) {
      assert Offers(s, k, av[k]);
    }
  }

  function Credits(ms: seq<Movement>): (r: seq<NewPosting>)
    ensures |r| == |ms|
  {
    seq(|ms|, i requires 0 <= i < |ms| => Credit(ms[i]))
  }

  /** What an intent moves: each holding gains its credits and pays its positive net debit. */
  function IntentDelta(t: Transfer, k: Key): int {
    SumNew(OfHolder(k.account, k.asset), Credits(t.movements)) - PositivePart(NetDebit(t.movements, k))
  }

  /** What an envelope moves into and out of one holding. */
  ghost function Moved(s: State, e: Envelope, k: Key): int {
    var sl := OfHolder(k.account, k.asset);
    SumNew(sl, e.creates) - SumIds(sl, s.immutable, e.consumes)
  }

  /** A resolved envelope is the intent: it credits each movement first, moves each holding
      by the intent's delta, and consumes only postings of accounts the intent debits. */
  ghost predicate Realises(s: State, t: Transfer, e: Envelope) {
    && |t.movements| <= |e.creates|
    && (forall i :: 0 <= i < |t.movements| ==> e.creates[i] == Credit(t.movements[i]))
    && (forall k: Key :: Moved(s, e, k) == IntentDelta(t, k))
    && e.book == t.book && e.metadata == t.metadata
  }

  lemma ResolvedRealises(digest: Digest, s: State, t: Transfer, e: Envelope)
    requires TablesOk(s) && ResolvesTo(digest, s, t, e)
    ensures Realises(s, t, e)
    ensures WithSnapshots(digest, s, e) == Some(e)
  {
    var draft, av, accounts :| DraftOf(t.movements, draft) && IntentLoaded(s, draft, av, accounts)
      && Resolved(t, draft, av, accounts) == Ok(e.(snapshots := []))
      && SnapshotsOf(digest, s, CreateOwners(e)) == Some(e.snapshots);
    assert CreateOwners(e) == CreateOwners(e.(snapshots := []));
    LoadedOffered(s, draft, av, accounts);
    RealisedBy(s, t, draft, av, accounts, e.(snapshots := []));
    assert e.snapshots == [] ==> e == e.(snapshots := []);
  }

  lemma RealisedBy(s: State, t: Transfer, draft: MovementDraft, av: Availability, accounts: Accounts, e: Envelope)
    requires DraftOf(t.movements, draft) && Offered(av, s.immutable) && Resolved(t, draft, av, accounts) == Ok(e)
    ensures Realises(s, t, e)
  {
    hide Offered, IntentDelta;
    CreditsLead(t, draft, av, accounts, e);
    forall k: Key ensures Moved(s, e, k) == IntentDelta(t, k) {
      RealisedFor(s, t, draft, av, accounts, e, k);
    }
  }

  lemma RealisedFor(s: State, t: Transfer, draft: MovementDraft, av: Availability, accounts: Accounts, e: Envelope, k: Key)
    requires DraftOf(t.movements, draft) && Offered(av, s.immutable) && Resolved(t, draft, av, accounts) == Ok(e)
    ensures Moved(s, e, k) == IntentDelta(t, k)
  {
    assert draft.creates == Credits(t.movements);
    hide Credits, DraftOf, Offered, Resolved, NetDebit, SumNew, SumIds;
    ResolvedHolder(t, draft, av, accounts, s.immutable, k);
  }

  /** The credits come first. */
  lemma CreditsLead(t: Transfer, draft: MovementDraft, av: Availability, accounts: Accounts, e: Envelope)
    requires DraftOf(t.movements, draft) && Resolved(t, draft, av, accounts) == Ok(e)
    ensures |t.movements| <= |e.creates| && e.book == t.book && e.metadata == t.metadata
    ensures forall i :: 0 <= i < |t.movements| ==> e.creates[i] == Credit(t.movements[i])
  {
    hide CoverAll, NetDebit;
  }

  /** At most one create more per debited holding. */
  lemma CreatesCounted(digest: Digest, s: State, t: Transfer, e: Envelope)
    requires ResolvesTo(digest, s, t, e)
    ensures |e.creates| <= |t.movements| + |Payers(t.movements)|
  {
    var draft, av, accounts :| DraftOf(t.movements, draft) && IntentLoaded(s, draft, av, accounts)
      && Resolved(t, draft, av, accounts) == Ok(e.(snapshots := []))
      && SnapshotsOf(digest, s, CreateOwners(e)) == Some(e.snapshots);
    hide IntentLoaded, SnapshotsOf;
    CoverAllCreates(draft.debits, av, accounts);
    DebitsArePayers(t.movements, draft);
    hide CoverAll, Payers;
  }

  lemma SmallIndexable(digest: Digest, s: State, t: Transfer)
    requires Small(t)
    ensures Indexable(digest, s, t)
  {
    hide ResolvesTo, Payers;
    forall e | ResolvesTo(digest, s, t, e) ensures |e.creates| <= TWO16 {
      CreatesCounted(digest, s, t, e);
    }
  }

  /** A commit of an intent keeps the invariant, and a failed one changes nothing. */
  lemma TransferKeeps(digest: Digest, s: State, t: Transfer, ts: i64, s': State, r: Answer)
    requires Inv(s) && Indexable(digest, s, t) && CommitsTransfer(digest, s, t, ts, s', r)
    ensures Inv(s') && Grows(s, s') && (r.Err? ==> s' == s)
  {
    hide Inv, Grows, ResolvesTo, ResolutionFails, CommitsPinned, WithSnapshots;
    SameState(s);
    if e :| ResolvesTo(digest, s, t, e) && CommitsEnvelope(digest, s, e, ts, s', r) {
      LogParts(s);
      ResolvedRealises(digest, s, t, e);
      CommitDecides(digest, s, e, ts, s', r);
    }
  }

  // ----- whose postings a resolved envelope touches -----

  /** Nothing is consumed but from a debited holding, and nothing is created past the
      movements' credits but on one. */
  ghost predicate OnlyDebited(rows: map<PostingId, Posting>, t: Transfer, e: Envelope) {
    && (forall id :: id in e.consumes ==> id in rows && NetDebit(t.movements, Key(rows[id].owner, rows[id].asset)) > 0)
    && (forall i :: |t.movements| <= i < |e.creates| ==> NetDebit(t.movements, Key(e.creates[i].owner, e.creates[i].asset)) > 0)
  }

  lemma {:induction false} CreatedByDebits(ds: seq<Debit>, av: Availability, accounts: Accounts)
    requires CoverAll(ds, av, accounts).Ok?
    ensures forall p :: p in CoverAll(ds, av, accounts).value.created ==>
      exists i :: 0 <= i < |ds| && Key(p.owner, p.asset) == ds[i].key
  {
    if ds != [] {
      var front, d := ds[..|ds| - 1], ds[|ds| - 1];
      CreatedByDebits(front, av, accounts);
      CoverValue(d, Available(av, d.key), MayOverdraw(accounts, d.key.account));
      var before, now := CoverAll(front, av, accounts).value.created, CoverIn(d, av, accounts).value.created;
      assert forall p :: p in now ==> p == now[0];
      hide CoverIn, Cover;
      forall p | p in before + now ensures exists i :: 0 <= i < |ds| && Key(p.owner, p.asset) == ds[i].key {
        if p in before {
          var i :| 0 <= i < |front| && Key(p.owner, p.asset) == front[i].key;
          assert ds[i] == front[i];
        } else {
          assert Key(p.owner, p.asset) == ds[|ds| - 1].key;
        }
      }
    }
  }

  lemma ResolvedOnlyDebits(digest: Digest, s: State, t: Transfer, e: Envelope)
    requires TablesOk(s) && ResolvesTo(digest, s, t, e)
    ensures OnlyDebited(s.immutable, t, e)
  {
    var draft, av, accounts :| DraftOf(t.movements, draft) && IntentLoaded(s, draft, av, accounts)
      && Resolved(t, draft, av, accounts) == Ok(e.(snapshots := []))
      && SnapshotsOf(digest, s, CreateOwners(e)) == Some(e.snapshots);
    LoadedOffered(s, draft, av, accounts);
    OnlyDebitedBy(s.immutable, t, draft, av, accounts, e.(snapshots := []));
  }

  lemma ConsumedDebited(rows: map<PostingId, Posting>, t: Transfer, draft: MovementDraft, av: Availability, accounts: Accounts, p: Posting)
    requires DraftOf(t.movements, draft) && Offered(av, rows) && CoverAll(draft.debits, av, accounts).Ok?
    requires p in CoverAll(draft.debits, av, accounts).value.consumed
    ensures p.id in rows && rows[p.id] == p && NetDebit(t.movements, Key(p.owner, p.asset)) > 0
  {
    hide CoverAll, NetDebit;
    ConsumedOffered(draft.debits, av, accounts);
    var k :| 0 <= k < |draft.debits| && p in Available(av, draft.debits[k].key);
    assert draft.debits[k].amount == NetDebit(t.movements, draft.debits[k].key) > 0;
  }

  lemma OnlyDebitedBy(rows: map<PostingId, Posting>, t: Transfer, draft: MovementDraft, av: Availability, accounts: Accounts, e: Envelope)
    requires DraftOf(t.movements, draft) && Offered(av, rows) && Resolved(t, draft, av, accounts) == Ok(e)
    ensures OnlyDebited(rows, t, e)
  {
    var sel := CoverAll(draft.debits, av, accounts).value;
    CreatedByDebits(draft.debits, av, accounts);
    hide CoverAll, NetDebit, Offered;
    forall id | id in e.consumes ensures id in rows && NetDebit(t.movements, Key(rows[id].owner, rows[id].asset)) > 0 {
      var j :| 0 <= j < |e.consumes| && e.consumes[j] == id;
      ConsumedDebited(rows, t, draft, av, accounts, sel.consumed[j]);
    }
    forall i | |t.movements| <= i < |e.creates| ensures NetDebit(t.movements, Key(e.creates[i].owner, e.creates[i].asset)) > 0 {
      assert e.creates[i] in sel.created;
      var j :| 0 <= j < |draft.debits| && Key(e.creates[i].owner, e.creates[i].asset) == draft.debits[j].key;
    }
  }
}

/** A leg answered from the log is compensated all the same: reversing it takes back the older
    transfer (crates/kuatia/src/saga.rs, crates/kuatia/src/ledger/commit.rs). */
module Replay {
  import opened Wrappers
  import opened Domain
  import opened Amounts
  import opened Store
  import opened Events
  import opened Sorting
  import opened Canonical
  import opened Validate
  import opened Runs
  import opened RunProofs
  import opened Resolution
  import opened LedgerOps
  import opened Intents
  import opened Saga
  import opened SagaTheorems
  import opened SagaGuard
  import opened RoundTrip

  // ----- a repeated deposit is answered from the log -----

  lemma DepositResolves(digest: Digest, s: State, leg: Leg, e: Envelope)
    requires leg.Deposit? && Build(leg).Ok? && WithSnapshots(digest, s, Bare(leg)) == Some(e)
    ensures ResolvesTo(digest, s, Build(leg).value, e)
  {
    var t := Build(leg).value;
    var draft := MovementDraft(Credits(t.movements), []);
    forall k ensures NetDebit(t.movements, k) == 0 {
      BuildMoves(leg, k);
    }
    hide NetDebit;
    assert DraftOf(t.movements, draft);
    hide DraftOf;
    assert IntentLoaded(s, draft, map[], map[]);
    assert CoverAll([], map[], map[]) == Ok(Selection([], []));
    assert Credits(t.movements) + [] == Credits(t.movements);
    hide CoverAll, IntentLoaded;
    assert PostingIds([]) == [];
    assert Resolved(t, draft, map[], map[]) == Ok(Bare(leg));
    SameCreateOwners(e, Bare(leg));
  }

  /** It changes nothing and hands out the old receipt. */
  lemma DepositReplays(digest: Digest, s: State, leg: Leg, t: EnvelopeId)
    requires Inv(s) && leg.Deposit? && Logged(digest, s, leg) && BareId(digest, s, leg) == Some(t)
    ensures LegCommitted(digest, s, leg, s, Receipt(t))
  {
    hide Inv, Bare, ResolvesTo, EnvelopeIdOf;
    var e := WithSnapshots(digest, s, Bare(leg)).value;
    DepositResolves(digest, s, leg, e);
    StoredReceipt(s, t);
    LogParts(s);
    ResolvedRealises(digest, s, Build(leg).value, e);
    hide WithSnapshots;
    assert CommitsPinned(digest, s, e, 0, s, Ok(Receipt(t)));
    assert CommitsTransfer(digest, s, Build(leg).value, 0, s, Ok(Receipt(t)));
  }

  /** The third run that is not compensated as promised: a deposit that repeats one in the log
      commits nothing, and when the next leg fails the older deposit is taken back, with the
      plain original error as the answer. */
  lemma RepeatedDepositTakenBack(
      digest: Digest, s: State, to: AccountId, x: AssetId, v: Cent, external: AccountId, c: AccountId, t: EnvelopeId, s': State, sl: Slice)
    requires Inv(s) && Logged(digest, s, Deposit(to, x, v, external)) && BareId(digest, s, Deposit(to, x, v, external)) == Some(t)
    requires c !in s.accounts && to in s.accounts && external in s.accounts
    requires ReversedTo(digest, s, t, s') && s' != s && |Consumes(s, t)| <= TWO16
    ensures var legs := [Deposit(to, x, v, external), Pay(c, to, x, 1)];
      && Buildable(legs) && Independent(legs)
      && RunsLegs(digest, s, legs, Trace([s, s], [Receipt(t)], [s, s']), s', Err(StoreFailed))
    ensures LiveSum(s', sl) == LiveSum(s, sl) - Delta(s, t, sl)
  {
    var first, second := Deposit(to, x, v, external), Pay(c, to, x, 1);
    hide Inv, Grows, LiveSum, Delta, BareId, LegCommitted, CommitsTransfer, ReversedTo, RunsLegs, Logged, Buildable, Independent, FailsToCommit;
    BareBuilds(digest, s, first, t);
    GuardedLegs(s, to, x, v, external, c);
    DepositReplays(digest, s, first, t);
    MissingFails(digest, s, c, to, x, 0);
    OneUnwound(digest, s, first, second, t, s', StoreFailed);
    OneTakenBack(digest, s, t, s', sl);
  }

  /** Every guard on the legs alone is met. */
  lemma GuardedLegs(s: State, to: AccountId, x: AssetId, v: Cent, external: AccountId, c: AccountId)
    requires c !in s.accounts && to in s.accounts && external in s.accounts && Build(Deposit(to, x, v, external)).Ok?
    ensures Buildable([Deposit(to, x, v, external), Pay(c, to, x, 1)]) && Independent([Deposit(to, x, v, external), Pay(c, to, x, 1)])
  {
  }

  lemma MissingFails(digest: Digest, s: State, c: AccountId, to: AccountId, x: AssetId, ts: i64)
    requires c !in s.accounts
    ensures FailsToCommit(digest, s, Build(Pay(c, to, x, 1)).value, StoreFailed)
  {
    hide CommitsTransfer;
    MissingPayerFails(digest, s, c, to, x, 1, ts);
  }

  lemma BareBuilds(digest: Digest, s: State, leg: Leg, t: EnvelopeId)
    requires Logged(digest, s, leg) && BareId(digest, s, leg) == Some(t)
    ensures Build(leg).Ok? && t in s.transfers
  {
  }

  /** One leg answered from the log, the next one failing, and one reversal. */
  lemma OneUnwound(digest: Digest, s: State, first: Leg, second: Leg, t: EnvelopeId, s': State, err: LedgerError)
    requires LegCommitted(digest, s, first, s, Receipt(t)) && Build(second).Ok? && FailsToCommit(digest, s, Build(second).value, err)
    requires ReversedTo(digest, s, t, s')
    ensures RunsLegs(digest, s, [first, second], Trace([s, s], [Receipt(t)], [s, s']), s', Err(err))
  {
    hide LegCommitted, FailsToCommit, ReversedTo, Build;
    assert Forward(digest, [first, second], [s, s], [Receipt(t)]);
    assert Backward(digest, [s, s'], [Receipt(t)]);
  }

  lemma OneTakenBack(digest: Digest, s: State, t: EnvelopeId, s': State, sl: Slice)
    requires Inv(s) && t in s.transfers && ReversedTo(digest, s, t, s') && s' != s && |Consumes(s, t)| <= TWO16
    ensures LiveSum(s', sl) == LiveSum(s, sl) - Delta(s, t, sl)
  {
    hide Inv, Grows, LiveSum, Delta, Reverses;
    var ts, r :| Reverses(digest, s, t, ts, s', Ok(r));
    ReverseNegates(digest, s, t, ts, s', Ok(r), sl);
  }

  // ----- an envelope among open accounts commits -----

  /** Nothing about the accounts, the book, the snapshots or the postings stands in its way. */
  ghost predicate Unopposed(digest: Digest, s: State, e: Envelope) {
    && e.book == DEFAULT_BOOK && DEFAULT_BOOK !in s.books && (e.consumes != [] || e.creates != [])
    && Distinct(e.consumes) && (forall id :: id in e.consumes ==> id in s.active && Open(s, s.active[id].owner))
    && (forall i :: 0 <= i < |e.creates| ==> Open(s, e.creates[i].owner))
    && (forall i :: 0 <= i < |e.snapshots| ==>
          Head(s, e.snapshots[i].account).Some? && e.snapshots[i].snapshotId == AccountHash(digest, Head(s, e.snapshots[i].account).value))
    && (forall key: BalanceKey :: Fits(LiveSum(s, Holding(key))))
  }

  function RowsOf(s: State, ids: seq<PostingId>): (r: seq<Posting>)
    requires forall id :: id in ids ==> id in s.active
    ensures |r| == |ids| && forall i :: 0 <= i < |ids| ==> r[i] == s.active[ids[i]]
  {
    seq(|ids|, i requires 0 <= i < |ids| => s.active[ids[i]])
  }

  /** What such an envelope is validated against. */
  ghost function LoadNow(digest: Digest, s: State, e: Envelope): Loaded
    requires Unopposed(digest, s, e)
  {
    var consumed := RowsOf(s, e.consumes);
    var required := Required(e, consumed);
    Loaded(
      consumed,
      map a | a in required.accounts && Head(s, a).Some? :: Head(s, a).value,
      map key: BalanceKey | key in required.balances :: LiveSum(s, Holding(key)),
      None)
  }

  lemma OwnersOpen(digest: Digest, s: State, e: Envelope, a: AccountId)
    requires Unopposed(digest, s, e) && a in Owners(e, RowsOf(s, e.consumes))
    ensures Open(s, a)
  {
    hide LiveSum, Open, SortDedup;
    var rows := RowsOf(s, e.consumes);
    if i :| 0 <= i < |rows| && rows[i].owner == a {
      assert e.consumes[i] in e.consumes;
    }
  }

  lemma RequiredKnown(digest: Digest, s: State, e: Envelope, a: AccountId)
    requires Unopposed(digest, s, e) && a in Required(e, RowsOf(s, e.consumes)).accounts
    ensures Head(s, a).Some?
  {
    var rows := RowsOf(s, e.consumes);
    hide LiveSum, Unopposed;
    assert a in Owners(e, rows) + SnapshotAccounts(e);
    if a in Owners(e, rows) {
      OwnersOpen(digest, s, e, a);
    } else {
      SnapshotKnown(digest, s, e, a);
    }
  }

  lemma SnapshotKnown(digest: Digest, s: State, e: Envelope, a: AccountId)
    requires Unopposed(digest, s, e) && a in SnapshotAccounts(e)
    ensures Head(s, a).Some?
  {
  }

  lemma UnopposedLoads(digest: Digest, s: State, e: Envelope)
    requires TablesOk(s) && Unopposed(digest, s, e)
    ensures LoadedNow(s, e, LoadNow(digest, s, e))
  {
    var past, l, rows := [s], LoadNow(digest, s, e), RowsOf(s, e.consumes);
    forall i | 0 <= i < |e.consumes| ensures e.consumes[i] in s.immutable && rows[i] == s.immutable[e.consumes[i]] {
      assert e.consumes[i] in e.consumes;
    }
    UnopposedReads(digest, s, e);
    UnopposedKeys(digest, s, e);
    hide Required, LiveSum, Owners, TablesOk, Unopposed, LoadNow;
    assert PostingsRead(past[0], e.consumes, rows);
    assert LoadedFrom(past, e, l);
  }

  lemma UnopposedKeys(digest: Digest, s: State, e: Envelope)
    requires Unopposed(digest, s, e)
    ensures var l := LoadNow(digest, s, e); var required := Required(e, l.consumed);
      l.accounts.Keys == (set a | a in required.accounts) && l.balances.Keys == (set key | key in required.balances) && l.book.None?
    ensures LoadNow(digest, s, e).consumed == RowsOf(s, e.consumes) && e.book !in s.books && e.book == DEFAULT_BOOK
  {
    forall a | a in Required(e, RowsOf(s, e.consumes)).accounts ensures Head(s, a).Some? {
      RequiredKnown(digest, s, e, a);
    }
    hide Required, LiveSum, Owners;
  }

  lemma UnopposedReads(digest: Digest, s: State, e: Envelope)
    requires Unopposed(digest, s, e)
    ensures var past, l := [s], LoadNow(digest, s, e);
      && (forall a :: a in l.accounts ==> exists i :: 0 <= i < |past| && Head(past[i], a) == Some(l.accounts[a]))
      && (forall key :: key in l.balances ==> exists i :: 0 <= i < |past| && l.balances[key] == LiveSum(past[i], Holding(key)))
  {
    hide LiveSum, Required, Owners;
    var past, l := [s], LoadNow(digest, s, e);
    forall a | a in l.accounts ensures exists i :: 0 <= i < |past| && Head(past[i], a) == Some(l.accounts[a]) {
      assert Head(past[0], a) == Some(l.accounts[a]);
    }
    forall key | key in l.balances ensures exists i :: 0 <= i < |past| && l.balances[key] == LiveSum(past[i], Holding(key)) {
      assert l.balances[key] == LiveSum(past[0], Holding(key));
    }
  }

  lemma UnopposedRules(digest: Digest, s: State, e: Envelope)
    requires TablesOk(s) && Unopposed(digest, s, e)
    ensures var inp := InputOf(e, LoadNow(digest, s, e));
      && NonEmpty(inp) && Found(inp) && OwnersUsable(inp) && SnapshotsCurrent(digest, inp) && NegativesPermitted(inp) && inp.book.None?
      && forall a :: a in inp.accounts ==> Head(s, a) == Some(inp.accounts[a])
  {
    var inp, rows := InputOf(e, LoadNow(digest, s, e)), RowsOf(s, e.consumes);
    UnopposedFound(s, e.consumes);
    forall a | a in Owners(e, rows) ensures Open(s, a) && a in Required(e, rows).accounts {
      OwnersOpen(digest, s, e, a);
      assert a in Owners(e, rows) + SnapshotAccounts(e);
    }
    forall i | 0 <= i < |e.snapshots| ensures e.snapshots[i].account in Required(e, rows).accounts {
      assert SnapshotAccounts(e)[i] in Owners(e, rows) + SnapshotAccounts(e);
    }
    hide LiveSum, Required, Owners, Rows, TablesOk;
  }

  /** The consumed rows are found among what was read. */
  lemma UnopposedFound(s: State, ids: seq<PostingId>)
    requires TablesOk(s) && forall id :: id in ids ==> id in s.active
    ensures forall i :: 0 <= i < |ids| ==> ids[i] in Put(map[], RowsOf(s, ids))
  {
    forall i | 0 <= i < |ids| ensures ids[i] in Put(map[], RowsOf(s, ids)) {
      assert ids[i] in ids;
      assert RowsOf(s, ids)[i].id == ids[i];
      PutHas(RowsOf(s, ids), i);
    }
  }

  lemma {:induction false} PutHas(ps: seq<Posting>, i: nat)
    requires i < |ps|
    ensures ps[i].id in Put(map[], ps)
  {
    if i < |ps| - 1 {
      PutHas(ps[..|ps| - 1], i);
    }
  }

  lemma UnopposedAcceptable(digest: Digest, s: State, e: Envelope)
    requires TablesOk(s) && Unopposed(digest, s, e)
    requires var inp := InputOf(e, LoadNow(digest, s, e)); Conserves(inp) && DeltasFit(inp)
    ensures Acceptable(digest, InputOf(e, LoadNow(digest, s, e)))
  {
    var inp, rows := InputOf(e, LoadNow(digest, s, e)), RowsOf(s, e.consumes);
    UnopposedRules(digest, s, e);
    TouchedOwned(inp);
    forall key | key in Validate.Touched(inp) ensures FloorOk(inp, key) {
      TouchedRequired(inp, key);
      OwnersOpen(digest, s, e, key.0);
    }
    hide Conserves, DeltasFit, LiveSum, Required, Owners, Rows, FloorOk, Found, OwnersUsable, SnapshotsCurrent, NegativesPermitted;
  }

  lemma {:induction false} AllActive(s: State, ids: seq<PostingId>)
    requires forall id :: id in ids ==> id in s.active
    ensures DoubleSpendGuard(s, ids).None?
  {
    if ids != [] {
      AllActive(s, ids[1..]);
    }
  }

  lemma UnopposedPasses(digest: Digest, s: State, e: Envelope, req: CommitRequest)
    requires Unopposed(digest, s, e) && req.transferId !in s.transfers && req.consume == e.consumes
    requires req.involved == Owners(e, RowsOf(s, e.consumes)) && req.record.receipt == Receipt(req.transferId)
    ensures Commits(s, req, Applied(s, req), Ok(Committed(Receipt(req.transferId))))
  {
    forall a | a in req.involved ensures Open(s, a) {
      OwnersOpen(digest, s, e, a);
    }
    hide LiveSum, Owners, Applied;
    AllOpen(s, req.involved);
    AllActive(s, e.consumes);
    assert Guard(s, req).None?;
    assert FloorHolds(s, req);
    PassedCommits(s, req);
  }

  /** Such an envelope commits if it conserves and its sums fit. */
  lemma UnopposedCommits(digest: Digest, s: State, e: Envelope, ts: i64) returns (s': State)
    requires Inv(s) && Unopposed(digest, s, e) && EnvelopeIdOf(digest, e) !in s.transfers
    requires var inp := InputOf(e, LoadNow(digest, s, e)); Conserves(inp) && DeltasFit(inp)
    ensures s' == Applied(s, RequestOf(digest, e, LoadNow(digest, s, e), ts))
    ensures CommitsPinned(digest, s, e, ts, s', Ok(Receipt(EnvelopeIdOf(digest, e))))
  {
    LogParts(s);
    hide Inv, TablesOk, SpentOk, ProvenanceOk, LiveSum, EnvelopeIdOf, Unopposed, Owners, Required, Acceptable, LoadedNow, Commits, Conserves, DeltasFit, Applied;
    var l := LoadNow(digest, s, e);
    var req := RequestOf(digest, e, l, ts);
    s' := Applied(s, req);
    UnopposedLoads(digest, s, e);
    UnopposedAcceptable(digest, s, e);
    UnopposedPasses(digest, s, e, req);
    var tid := EnvelopeIdOf(digest, e);
    assert Submitted(digest, s, e, l, ts, s', Ok(Committed(Receipt(tid))));
    assert AnswerOf(Ok(Committed(Receipt(tid)))) == Ok(Receipt(tid));
  }

  // ----- a deposit and its reversal -----

  lemma DepositBare(leg: Leg)
    requires leg.Deposit? && leg.amount > 0
    ensures Build(leg).Ok?
    ensures var cs := Bare(leg).creates;
      && |cs| == 2 && cs[0].owner == leg.external && cs[0].asset == leg.asset && cs[0].value == -(leg.amount as int)
      && cs[1].owner == leg.to && cs[1].asset == leg.asset && cs[1].value == leg.amount
  {
  }

  /** What a deposit has moved of a slice once it has written `k` of its postings. */
  function DepositPart(leg: Leg, sl: Slice, k: nat): int
    requires leg.Deposit?
  {
    (if k >= 2 && Covers(sl, leg.to, leg.asset) then leg.amount as int else 0)
    - (if k >= 1 && Covers(sl, leg.external, leg.asset) then leg.amount as int else 0)
  }

  lemma DepositCreated(leg: Leg, sl: Slice, k: nat)
    requires leg.Deposit? && leg.amount > 0 && Build(leg).Ok? && k <= 2
    ensures |Bare(leg).creates| == 2 && SumNew(sl, Bare(leg).creates[..k]) == DepositPart(leg, sl, k)
  {
    var cs := Bare(leg).creates;
    DepositBare(leg);
    hide Bare;
    assert SumNew(sl, cs[..0]) == 0;
    assert cs[..1][..0] == cs[..0] && cs[..2][..1] == cs[..1];
  }

  lemma DepositArithmetic(leg: Leg, inp: PlanInput)
    requires leg.Deposit? && leg.amount > 0 && leg.to != leg.external && Build(leg).Ok?
    requires inp.envelope.consumes == [] && inp.envelope.creates == Bare(leg).creates
    ensures Conserves(inp) && DeltasFit(inp)
  {
    DepositBare(leg);
    forall sl: Slice, k | 0 <= k <= 2 ensures Created(inp, sl, k) == DepositPart(leg, sl, k) {
      DepositCreated(leg, sl, k);
    }
    forall sl: Slice ensures Consumed(inp, sl, 0) == 0 {
    }
    hide Created, Consumed, Bare;
  }

  /** The two postings of a deposit, and the envelope that takes them back. */
  function DepositRow(leg: Leg, t: EnvelopeId, k: nat): Posting
    requires leg.Deposit? && leg.amount > 0 && k < 2
  {
    if k == 0 then Posting(PostingId(t, 0), leg.external, leg.asset, -(leg.amount as int)) else Posting(PostingId(t, 1), leg.to, leg.asset, leg.amount)
  }

  function DepositBack(t: EnvelopeId): Envelope { Envelope([PostingId(t, 0), PostingId(t, 1)], [], [], DEFAULT_BOOK, []) }

  lemma BackConsumed(leg: Leg, t: EnvelopeId, inp: PlanInput, sl: Slice, k: nat)
    requires leg.Deposit? && leg.amount > 0 && k <= 2
    requires inp.envelope == DepositBack(t) && inp.consumedPostings == [DepositRow(leg, t, 0), DepositRow(leg, t, 1)]
    ensures Consumed(inp, sl, k) == DepositPart(leg, sl, k)
  {
    var p, q, ids := DepositRow(leg, t, 0), DepositRow(leg, t, 1), inp.envelope.consumes;
    PutTwo(p, q);
    assert Rows(inp) == map[p.id := p, q.id := q];
    hide Rows;
    assert ids[..1][..0] == ids[..0] && ids[..2][..1] == ids[..1];
    assert SumIds(sl, Rows(inp), ids[..0]) == 0;
    assert SumIds(sl, Rows(inp), ids[..1]) == SumIds(sl, Rows(inp), ids[..0]) + Weight(sl, p);
    assert SumIds(sl, Rows(inp), ids[..2]) == SumIds(sl, Rows(inp), ids[..1]) + Weight(sl, q);
  }

  lemma BackArithmetic(leg: Leg, t: EnvelopeId, inp: PlanInput)
    requires leg.Deposit? && leg.amount > 0 && leg.to != leg.external
    requires inp.envelope == DepositBack(t) && inp.consumedPostings == [DepositRow(leg, t, 0), DepositRow(leg, t, 1)]
    ensures Conserves(inp) && DeltasFit(inp)
  {
    forall sl: Slice, k | 0 <= k <= 2 ensures Consumed(inp, sl, k) == DepositPart(leg, sl, k) {
      BackConsumed(leg, t, inp, sl, k);
    }
    forall sl: Slice ensures Created(inp, sl, 0) == 0 {
    }
    hide Created, Consumed;
  }

  // ----- such a state exists -----

  lemma NoBalances(a: AccountId, b: AccountId, c: AccountId, sl: Slice)
    ensures LiveSum(Registered(a, b, c), sl) == 0
  {
    assert Live(Registered(a, b, c)) == map[];
    assert Weights(sl, Live(Registered(a, b, c))) == map[];
  }

  lemma DepositUnopposed(digest: Digest, a: AccountId, b: AccountId, c: AccountId, x: AssetId, v: Cent, e: Envelope)
    requires a != b && b != c && a != c && v > 0
    requires WithSnapshots(digest, Registered(a, b, c), Bare(Deposit(a, x, v, c))) == Some(e)
    ensures Unopposed(digest, Registered(a, b, c), e)
  {
    var s := Registered(a, b, c);
    forall key: BalanceKey ensures Fits(LiveSum(s, Holding(key))) {
      NoBalances(a, b, c, Holding(key));
    }
    DepositBare(Deposit(a, x, v, c));
    hide LiveSum, Bare, WithSnapshots;
    SnapshotsOnly(digest, s, Bare(Deposit(a, x, v, c)));
    PinnedCurrent(digest, s, Bare(Deposit(a, x, v, c)), e);
  }

  lemma PinnedCurrent(digest: Digest, s: State, bare: Envelope, e: Envelope)
    requires bare.snapshots == [] && WithSnapshots(digest, s, bare) == Some(e)
    ensures forall i :: 0 <= i < |e.snapshots| ==>
      Head(s, e.snapshots[i].account).Some? && e.snapshots[i].snapshotId == AccountHash(digest, Head(s, e.snapshots[i].account).value)
  {
    hide CreateOwners, AccountHash;
  }

  /** From two registered accounts, a deposit commits. */
  lemma DepositStores(digest: Digest, a: AccountId, b: AccountId, c: AccountId, x: AssetId, v: Cent) returns (s: State, t: EnvelopeId)
    requires a != b && b != c && a != c && v > 0
    ensures Deposited(digest, a, b, c, x, v, s, t) && BareId(digest, Registered(a, b, c), Deposit(a, x, v, c)) == Some(t)
  {
    var s0, leg := Registered(a, b, c), Deposit(a, x, v, c);
    DepositBare(leg);
    DepositPins(digest, a, b, c, x, v);
    var e := WithSnapshots(digest, s0, Bare(leg)).value;
    SnapshotsOnly(digest, s0, Bare(leg));
    DepositUnopposed(digest, a, b, c, x, v, e);
    DepositArithmetic(leg, InputOf(e, LoadNow(digest, s0, e)));
    RegisteredInv(a, b, c);
    hide Inv, Grows, LiveSum, Bare, Unopposed, Conserves, DeltasFit, EnvelopeIdOf, WithSnapshots, CommitsPinned, Recorded, Registered, Deposited;
    assert EnvelopeIdOf(digest, e) !in s0.transfers by { NothingLogged(a, b, c, EnvelopeIdOf(digest, e)); }
    s := UnopposedCommits(digest, s0, e, 0);
    t := EnvelopeIdOf(digest, e);
    CommitDecides(digest, s0, e, 0, s, Ok(Receipt(t)));
    DepositedBy(digest, a, b, c, x, v, e, s);
  }

  lemma NothingLogged(a: AccountId, b: AccountId, c: AccountId, t: EnvelopeId)
    ensures t !in Registered(a, b, c).transfers
  {
  }

  lemma DepositPins(digest: Digest, a: AccountId, b: AccountId, c: AccountId, x: AssetId, v: Cent)
    requires a != b && b != c && a != c && v > 0
    ensures Build(Deposit(a, x, v, c)).Ok? && WithSnapshots(digest, Registered(a, b, c), Bare(Deposit(a, x, v, c))).Some?
  {
    var e := Bare(Deposit(a, x, v, c));
    DepositBare(Deposit(a, x, v, c));
    assert e.snapshots == [];
    hide Bare, AccountHash;
    var ids := CreateOwners(e);
    assert forall o :: o in ids ==> o == a || o == c;
    hide CreateOwners;
    forall i | 0 <= i < |ids| ensures Head(Registered(a, b, c), ids[i]).Some? {
      assert ids[i] in ids;
    }
  }

  /** One deposit from `c` to `a` is all that has happened. */
  ghost predicate Deposited(digest: Digest, a: AccountId, b: AccountId, c: AccountId, x: AssetId, v: Cent, s: State, t: EnvelopeId) {
    var leg := Deposit(a, x, v, c);
    && v > 0 && Inv(s) && s.accounts == Registered(a, b, c).accounts && s.books == map[] && s.transfers.Keys == {t}
    && Build(leg).Ok? && Logged(digest, s, leg) && BareId(digest, s, leg) == Some(t)
    && s.transfers[t].envelope.consumes == [] && |s.transfers[t].envelope.creates| == 2
    && s.transfers[t].envelope.book == DEFAULT_BOOK && s.transfers[t].envelope.metadata == []
    && s.active == map[PostingId(t, 0) := DepositRow(leg, t, 0), PostingId(t, 1) := DepositRow(leg, t, 1)]
    && (forall sl :: LiveSum(s, sl) == DepositPart(leg, sl, 2) && Delta(s, t, sl) == DepositPart(leg, sl, 2))
  }

  lemma DepositedRows(digest: Digest, s0: State, leg: Leg, e: Envelope, l: Loaded, ts: i64)
    requires leg.Deposit? && leg.amount > 0 && Build(leg).Ok? && e.creates == Bare(leg).creates && e.consumes == [] && s0.active == map[]
    ensures var t := EnvelopeIdOf(digest, e);
      Applied(s0, RequestOf(digest, e, l, ts)).active == map[PostingId(t, 0) := DepositRow(leg, t, 0), PostingId(t, 1) := DepositRow(leg, t, 1)]
  {
    hide EnvelopeIdOf, Put, PlannedPostings, PutAbsent, Append, Owners, DepositRow, Bare;
    var req := RequestOf(digest, e, l, ts);
    DepositPlanned(leg, req.transferId, e.creates);
    assert req.consume == [] && req.create == PlannedPostings(req.transferId, e.creates);
    hide RequestOf;
    DepositApplied(s0, req, DepositRow(leg, req.transferId, 0), DepositRow(leg, req.transferId, 1));
  }

  lemma DepositPlanned(leg: Leg, t: EnvelopeId, creates: seq<NewPosting>)
    requires leg.Deposit? && leg.amount > 0 && Build(leg).Ok? && creates == Bare(leg).creates
    ensures PlannedPostings(t, creates) == [DepositRow(leg, t, 0), DepositRow(leg, t, 1)]
    ensures DepositRow(leg, t, 0).id == PostingId(t, 0) && DepositRow(leg, t, 1).id == PostingId(t, 1)
  {
    DepositBare(leg);
    hide Bare;
  }

  lemma DepositApplied(s: State, req: CommitRequest, p: Posting, q: Posting)
    requires s.active == map[] && req.consume == [] && req.create == [p, q] && p.id != q.id
    ensures Applied(s, req).active == map[p.id := p, q.id := q]
  {
    hide Put, PutAbsent, Append;
    assert s.active - IdSet([]) == map[];
    PutTwo(p, q);
  }

  lemma PutTwo(p: Posting, q: Posting)
    requires p.id != q.id
    ensures Put(map[], [p, q]) == map[p.id := p, q.id := q]
  {
    assert [p, q][..1] == [p] && [p][..0] == [];
    assert Put(map[], [p]) == Put(map[], [p][..0])[p.id := p];
    assert Put(map[], [p, q]) == Put(map[], [p, q][..1])[q.id := q];
  }

  lemma DepositedSums(digest: Digest, a: AccountId, b: AccountId, c: AccountId, x: AssetId, v: Cent, e: Envelope, s: State, sl: Slice)
    requires a != b && b != c && a != c && v > 0 && Build(Deposit(a, x, v, c)).Ok?
    requires e.creates == Bare(Deposit(a, x, v, c)).creates && e.consumes == [] && Recorded(digest, Registered(a, b, c), e, s)
    ensures EnvelopeIdOf(digest, e) in s.transfers
    ensures LiveSum(s, sl) == DepositPart(Deposit(a, x, v, c), sl, 2) && Delta(s, EnvelopeIdOf(digest, e), sl) == DepositPart(Deposit(a, x, v, c), sl, 2)
  {
    hide Inv, Recorded, LiveSum, Delta, Bare, EnvelopeIdOf, Registered, DepositPart;
    var s0 := Registered(a, b, c);
    RegisteredInv(a, b, c);
    NoBalances(a, b, c, sl);
    DepositCreated(Deposit(a, x, v, c), sl, 2);
    RecordedSum(digest, s0, e, s, sl);
    assert e.creates[..2] == e.creates;
    assert SumIds(sl, s0.immutable, e.consumes) == 0;
  }

  lemma DepositedBy(digest: Digest, a: AccountId, b: AccountId, c: AccountId, x: AssetId, v: Cent, e: Envelope, s: State)
    requires a != b && b != c && a != c && v > 0 && Build(Deposit(a, x, v, c)).Ok?
    requires WithSnapshots(digest, Registered(a, b, c), Bare(Deposit(a, x, v, c))) == Some(e) && Unopposed(digest, Registered(a, b, c), e)
    requires Inv(s) && Recorded(digest, Registered(a, b, c), e, s)
    requires s == Applied(Registered(a, b, c), RequestOf(digest, e, LoadNow(digest, Registered(a, b, c), e), 0))
    ensures Deposited(digest, a, b, c, x, v, s, EnvelopeIdOf(digest, e))
  {
    hide Inv, Recorded, LiveSum, Delta, Unopposed, LoadNow, WithSnapshots, EnvelopeIdOf, RequestOf, Applied;
    var s0, leg, t := Registered(a, b, c), Deposit(a, x, v, c), EnvelopeIdOf(digest, e);
    SnapshotsOnly(digest, s0, Bare(leg));
    DepositBare(leg);
    hide Bare;
    DepositedRows(digest, s0, leg, e, LoadNow(digest, s0, e), 0);
    AppliedBooks(s0, RequestOf(digest, e, LoadNow(digest, s0, e), 0));
    RegisteredInv(a, b, c);
    RecordedEffect(digest, s0, e, s);
    SamePins(digest, s0, s, Bare(leg));
    forall sl ensures LiveSum(s, sl) == DepositPart(leg, sl, 2) && Delta(s, t, sl) == DepositPart(leg, sl, 2) {
      DepositedSums(digest, a, b, c, x, v, e, s, sl);
    }
    NothingLogged(a, b, c, t);
    assert s0.transfers == map[] && s.transfers.Keys == {t};
    assert Logged(digest, s, leg) && BareId(digest, s, leg) == Some(t);
  }

  lemma AppliedBooks(s: State, req: CommitRequest)
    ensures Applied(s, req).books == s.books
  {
  }

  lemma BackUnopposed(digest: Digest, a: AccountId, b: AccountId, c: AccountId, x: AssetId, v: Cent, s: State, t: EnvelopeId)
    requires a != b && b != c && a != c && Deposited(digest, a, b, c, x, v, s, t)
    ensures Unopposed(digest, s, DepositBack(t))
    ensures RowsOf(s, DepositBack(t).consumes) == [DepositRow(Deposit(a, x, v, c), t, 0), DepositRow(Deposit(a, x, v, c), t, 1)]
  {
    hide LiveSum, Delta, Inv, Logged, BareId, Bare;
    var leg := Deposit(a, x, v, c);
    forall key: BalanceKey ensures Fits(LiveSum(s, Holding(key))) {
      assert LiveSum(s, Holding(key)) == DepositPart(leg, Holding(key), 2);
    }
    assert DepositBack(t).consumes[0] != DepositBack(t).consumes[1];
  }

  lemma BackIsReversal(digest: Digest, a: AccountId, b: AccountId, c: AccountId, x: AssetId, v: Cent, s: State, t: EnvelopeId)
    requires Deposited(digest, a, b, c, x, v, s, t)
    ensures ReversalOf(s, t) == Some(DepositBack(t)) && WithSnapshots(digest, s, DepositBack(t)) == Some(DepositBack(t))
  {
    hide LiveSum, Delta, Logged, BareId, Bare, Inv;
    StoredReceipt(s, t);
    assert CreatedIds(t, 2) == [PostingId(t, 0), PostingId(t, 1)];
    assert Returned(s.immutable, []) == [];
    var e := DepositBack(t);
    assert CreateOwners(e) == [] by {
      assert seq(|e.creates|, i requires 0 <= i < |e.creates| => e.creates[i].owner) == [];
    }
    assert SnapshotsOf(digest, s, []).value == [];
  }

  lemma RowsLoadedNow(digest: Digest, s: State, e: Envelope)
    requires Unopposed(digest, s, e)
    ensures LoadNow(digest, s, e).consumed == RowsOf(s, e.consumes)
  {
  }

  /** And its reversal commits, unless the two content hashes collide. */
  lemma DepositReverses(digest: Digest, a: AccountId, b: AccountId, c: AccountId, x: AssetId, v: Cent, s: State, t: EnvelopeId) returns (s': State)
    requires a != b && b != c && a != c && Deposited(digest, a, b, c, x, v, s, t) && EnvelopeIdOf(digest, DepositBack(t)) != t
    ensures ReversedTo(digest, s, t, s') && s' != s
  {
    hide Inv, LiveSum, Delta, Logged, BareId, Bare, Unopposed, Conserves, DeltasFit, EnvelopeIdOf, WithSnapshots, CommitsPinned, Recorded, Applied, ReversalOf;
    var leg, p := Deposit(a, x, v, c), DepositBack(t);
    BackUnopposed(digest, a, b, c, x, v, s, t);
    BackIsReversal(digest, a, b, c, x, v, s, t);
    assert LoadNow(digest, s, p).consumed == RowsOf(s, p.consumes) by { RowsLoadedNow(digest, s, p); }
    hide LoadNow;
    BackArithmetic(leg, t, InputOf(p, LoadNow(digest, s, p)));
    s' := UnopposedCommits(digest, s, p, 0);
    CommitDecides(digest, s, p, 0, s', Ok(Receipt(EnvelopeIdOf(digest, p))));
    assert Reverses(digest, s, t, 0, s', Ok(Receipt(EnvelopeIdOf(digest, p))));
    RecordedIsNew(digest, s, p, s');
  }

  /** The whole story from two registered accounts: a deposit; then a run that repeats it and
      goes on to an unknown payer.  The run answers with the plain error of that second leg,
      and `a` has lost the first deposit. */
  lemma RepeatedDepositNotRestored(digest: Digest, a: AccountId, b: AccountId, c: AccountId, d: AccountId, x: AssetId, v: Cent)
      returns (s: State, t: EnvelopeId, tr: Trace, s': State)
    requires a != b && b != c && a != c && d !in {a, b, c} && v > 0
    requires forall u :: BareId(digest, Registered(a, b, c), Deposit(a, x, v, c)) == Some(u) ==> EnvelopeIdOf(digest, DepositBack(u)) != u
    ensures Deposited(digest, a, b, c, x, v, s, t)
    ensures var legs := [Deposit(a, x, v, c), Pay(d, a, x, 1)];
      Buildable(legs) && Independent(legs) && FewLive(s, legs) && RunsLegs(digest, s, legs, tr, s', Err(StoreFailed))
    ensures LiveSum(s', OfHolder(a, x)) == LiveSum(s, OfHolder(a, x)) - v
  {
    hide Inv, LiveSum, Delta, Deposited, ReversedTo, RunsLegs, Buildable, Independent, Logged, BareId, Bare, FewLive;
    s, t := DepositStores(digest, a, b, c, x, v);
    s' := DepositReverses(digest, a, b, c, x, v, s, t);
    tr := Trace([s, s], [Receipt(t)], [s, s']);
    DepositedFacts(digest, a, b, c, x, v, s, t);
    RepeatedDepositTakenBack(digest, s, a, x, v, c, d, t, s', OfHolder(a, x));
    NothingPaid(digest, a, b, c, d, x, v, s, t);
  }

  lemma DepositedFacts(digest: Digest, a: AccountId, b: AccountId, c: AccountId, x: AssetId, v: Cent, s: State, t: EnvelopeId)
    requires a != b && b != c && a != c && Deposited(digest, a, b, c, x, v, s, t)
    ensures Inv(s) && s.accounts.Keys == {a, b, c} && t in s.transfers && Consumes(s, t) == []
    ensures Build(Deposit(a, x, v, c)).Ok? && Logged(digest, s, Deposit(a, x, v, c)) && BareId(digest, s, Deposit(a, x, v, c)) == Some(t)
    ensures Delta(s, t, OfHolder(a, x)) == v
  {
    hide Inv, Logged, BareId, Bare, LiveSum, Delta;
    assert Delta(s, t, OfHolder(a, x)) == DepositPart(Deposit(a, x, v, c), OfHolder(a, x), 2);
  }

  lemma NothingPaid(digest: Digest, a: AccountId, b: AccountId, c: AccountId, d: AccountId, x: AssetId, v: Cent, s: State, t: EnvelopeId)
    requires a != b && b != c && a != c && Deposited(digest, a, b, c, x, v, s, t) && d !in {a, b, c}
    ensures FewLive(s, [Deposit(a, x, v, c), Pay(d, a, x, 1)])
  {
    hide Inv, Deposited, Logged, BareId, Bare, LiveSum, Delta, Live;
    DepositedFacts(digest, a, b, c, x, v, s, t);
    NotHolding(s, d);
    assert LiveIn(s, Key(d, x)) == {};
  }

  /** An unregistered account holds nothing. */
  lemma NotHolding(s: State, d: AccountId)
    requires Inv(s) && d !in s.accounts
    ensures forall id :: id in Live(s) ==> Live(s)[id].owner != d
  {
    OwnedParts(s);
    hide Inv, TablesOk;
    LiveRows(s);
  }

  lemma OwnedParts(s: State)
    requires Inv(s)
    ensures TablesOk(s) && OwnershipOk(s)
  {
  }
}

/** Commits of any width.  A posting's position is cast to 16 bits, so the creates of an
    envelope with more than 65536 of them share ids and the later ones win: this says exactly
    what such a commit leaves (crates/kuatia-core/src/validate.rs,
    crates/kuatia-storage/src/mem_store.rs). */
module WideCommits {
  import opened Wrappers
  import opened Domain
  import opened Amounts
  import opened Store
  import opened Events
  import opened Sorting
  import opened Canonical
  import opened Validate
  import opened Runs
  import opened RunProofs
  import opened LedgerOps
  import opened RoundTrip

  function LostCount(creates: seq<NewPosting>): nat { if |creates| <= TWO16 then 0 else |creates| - TWO16 }

  /** The creates whose position comes round again, and those that stay. */
  function Lost(creates: seq<NewPosting>): seq<NewPosting> { creates[..LostCount(creates)] }

  function Kept(creates: seq<NewPosting>): seq<NewPosting> { creates[LostCount(creates)..] }

  // ----- writing over -----

  lemma {:induction false} PutAppend(rows: map<PostingId, Posting>, a: seq<Posting>, b: seq<Posting>)
    ensures Put(rows, a + b) == Put(Put(rows, a), b)
  {
    if b == [] {
      assert a + b == a;
    } else {
      PutAppend(rows, a, b[..|b| - 1]);
      assert (a + b)[..|a + b| - 1] == a + b[..|b| - 1];
    }
  }

  /** A table after a write: the written ids hold what was written, the rest is as before. */
  lemma {:induction false} PutAt(rows: map<PostingId, Posting>, ps: seq<Posting>, id: PostingId)
    ensures id in Put(rows, ps) <==> id in rows || id in IdsOf(ps)
    ensures id in IdsOf(ps) ==> id in Put(map[], ps) && Put(rows, ps)[id] == Put(map[], ps)[id]
    ensures id in rows && id !in IdsOf(ps) ==> Put(rows, ps)[id] == rows[id]
  {
    if ps != [] {
      PutAt(rows, ps[..|ps| - 1], id);
      IdsOfSnoc(ps);
    }
  }

  /** A write hides an earlier one to the same ids. */
  lemma PutOver(rows: map<PostingId, Posting>, a: seq<Posting>, b: seq<Posting>)
    requires IdsOf(a) <= IdsOf(b)
    ensures Put(rows, a + b) == Put(rows, b)
  {
    PutAppend(rows, a, b);
    forall id ensures (id in Put(Put(rows, a), b) <==> id in Put(rows, b)) && (id in Put(rows, b) ==> Put(Put(rows, a), b)[id] == Put(rows, b)[id]) {
      PutAt(rows, a, id);
      PutAt(rows, b, id);
      PutAt(Put(rows, a), b, id);
    }
  }

  // ----- the plan's postings -----

  lemma PlannedAt(tid: EnvelopeId, creates: seq<NewPosting>, i: nat)
    requires i < |creates|
    ensures PlannedPostings(tid, creates)[i].id == PostingId(tid, i % 0x1_0000)
  {
  }

  lemma KeptIds(tid: EnvelopeId, creates: seq<NewPosting>)
    ensures var ps, k := PlannedPostings(tid, creates), LostCount(creates);
      IdsOf(ps[..k]) <= IdsOf(ps[k..]) && forall i, j :: k <= i < j < |ps| ==> ps[i].id != ps[j].id
  {
    var ps, k, n := PlannedPostings(tid, creates), LostCount(creates), |creates|;
    forall id | id in IdsOf(ps[..k]) ensures id in IdsOf(ps[k..]) {
      var i :| 0 <= i < k && ps[..k][i].id == id;
      var turns := (n - 1 - i) / 0x1_0000;
      var j := i + turns * 0x1_0000;
      SamePlace(i, turns);
      PlannedAt(tid, creates, i);
      PlannedAt(tid, creates, j);
      assert ps[k..][j - k].id == id;
    }
    forall i, j | k <= i < j < n ensures ps[i].id != ps[j].id {
      PlannedAt(tid, creates, i);
      PlannedAt(tid, creates, j);
      Apart16(i, j);
    }
  }

  lemma SamePlace(i: nat, turns: nat)
    ensures (i + turns * 0x1_0000) % 0x1_0000 == i % 0x1_0000
  {
  }

  lemma Apart16(i: nat, j: nat)
    requires i < j < i + 0x1_0000
    ensures i % 0x1_0000 != j % 0x1_0000
  {
  }

  lemma {:induction false} PlannedTailSum(sl: Slice, tid: EnvelopeId, creates: seq<NewPosting>, k: nat)
    requires k <= |creates|
    ensures SumPostings(sl, PlannedPostings(tid, creates)[k..]) == SumNew(sl, creates[k..])
  {
    if k < |creates| {
      var n := |creates| - 1;
      PlannedTailSum(sl, tid, creates[..n], k);
      assert PlannedPostings(tid, creates)[k..][..n - k] == PlannedPostings(tid, creates[..n])[k..];
      assert creates[k..][..n - k] == creates[..n][k..];
    }
  }

  // ----- the commit -----

  /** A new transfer's plan over active postings, however many it creates. */
  ghost predicate Planned(s: State, req: CommitRequest) {
    var e := req.record.envelope;
    && req.consume == e.consumes && Distinct(e.consumes) && (forall id :: id in e.consumes ==> id in s.active)
    && req.create == PlannedPostings(req.transferId, e.creates) && req.transferId !in s.transfers
  }

  lemma WideLive(s: State, req: CommitRequest)
    requires TablesOk(s) && ProvenanceOk(s) && Planned(s, req)
    ensures Live(Applied(s, req)) == Put(Live(s) - IdSet(req.consume), req.create)
    ensures forall i :: 0 <= i < |req.create| ==> req.create[i].id !in Live(s)
  {
    hide PlannedPostings, PlannedPosting, PutAbsent, Append, SpentOk;
    LiveRows(s);
    forall i | 0 <= i < |req.create| ensures req.create[i].id !in Live(s) && req.create[i].id.transfer == req.transferId {
      PlannedAt(req.transferId, req.record.envelope.creates, i);
    }
    var base, held := s.active - IdSet(req.consume), ReservedRows(s.reserved);
    assert Live(s) - IdSet(req.consume) == base + held;
    PutBeside(base, held, req.create);
  }

  /** A write beside untouched rows. */
  lemma {:induction false} PutBeside(base: map<PostingId, Posting>, held: map<PostingId, Posting>, ps: seq<Posting>)
    requires forall i :: 0 <= i < |ps| ==> ps[i].id !in held
    ensures Put(base, ps) + held == Put(base + held, ps)
  {
    if ps != [] {
      PutBeside(base, held, ps[..|ps| - 1]);
    }
  }

  /** What a table sums to after the planned postings are written to it. */
  lemma WidePutSum(sl: Slice, base: map<PostingId, Posting>, tid: EnvelopeId, creates: seq<NewPosting>)
    requires forall i :: 0 <= i < |creates| ==> PlannedPostings(tid, creates)[i].id !in base
    ensures SumRows(sl, Put(base, PlannedPostings(tid, creates))) == SumRows(sl, base) + SumNew(sl, Kept(creates))
  {
    var ps, k := PlannedPostings(tid, creates), LostCount(creates);
    KeptIds(tid, creates);
    PlannedTailSum(sl, tid, creates, k);
    hide PlannedPostings, Put, SumRows, SumNew;
    assert ps == ps[..k] + ps[k..];
    PutOver(base, ps[..k], ps[k..]);
    PutSum(sl, base, ps[k..]);
  }

  /** Whatever its width, a commit moves each slice by the creates it keeps less what it
      consumed: the creates whose position comes round again are lost. */
  lemma WideCommitSum(s: State, req: CommitRequest, sl: Slice)
    requires TablesOk(s) && ProvenanceOk(s) && Planned(s, req)
    ensures LiveSum(Applied(s, req), sl) == LiveSum(s, sl) + SumNew(sl, Kept(req.record.envelope.creates)) - SumIds(sl, s.immutable, req.consume)
  {
    WideLive(s, req);
    LiveRows(s);
    hide Live, Applied, ProvenanceOk, TablesOk, PlannedPostings, Put, SumRows;
    WidePutSum(sl, Live(s) - IdSet(req.consume), req.transferId, req.record.envelope.creates);
    SumRowsSpend(sl, Live(s), req.consume);
    SumIdsAgree(sl, Live(s), s.immutable, req.consume);
  }

  /** So a balanced envelope leaves every asset's total alone exactly when what it loses
      sums to zero in every asset; up to 65536 creates nothing is lost. */
  lemma WideCommitConserves(s: State, req: CommitRequest)
    requires TablesOk(s) && ProvenanceOk(s) && Planned(s, req)
    requires forall x: AssetId :: SumNew(OfAsset(x), req.record.envelope.creates) == SumIds(OfAsset(x), s.immutable, req.consume)
    ensures (forall x: AssetId :: LiveSum(Applied(s, req), OfAsset(x)) == LiveSum(s, OfAsset(x)))
      <==> (forall x: AssetId :: SumNew(OfAsset(x), Lost(req.record.envelope.creates)) == 0)
  {
    var creates := req.record.envelope.creates;
    hide LiveSum, Applied, SumNew, SumIds, Lost, TablesOk, ProvenanceOk, Planned;
    forall x: AssetId
      ensures LiveSum(Applied(s, req), OfAsset(x)) == LiveSum(s, OfAsset(x)) - SumNew(OfAsset(x), Lost(creates))
    {
      WideCommitSum(s, req, OfAsset(x));
      LostAndKept(OfAsset(x), creates);
    }
  }

  lemma LostAndKept(sl: Slice, creates: seq<NewPosting>)
    ensures SumNew(sl, creates) == SumNew(sl, Lost(creates)) + SumNew(sl, Kept(creates))
  {
    SumNewAppend(sl, Lost(creates), Kept(creates));
    assert creates == Lost(creates) + Kept(creates);
  }

  // ----- an accepted envelope that loses a unit -----

  /** A unit for `b` first, the matching debt of `a` 65536 places later, nothing between. */
  function WideCreates(a: AccountId, b: AccountId, x: AssetId): (r: seq<NewPosting>)
    ensures |r| == 0x1_0001
  {
    seq(0x1_0001, i => if i == 0 then NewPosting(b, x, 1, None) else if i == 0x1_0000 then NewPosting(a, x, -1, None) else NewPosting(b, x, 0, None))
  }

  function WideIssue(digest: Digest, s: State, a: AccountId, b: AccountId, x: AssetId): Envelope
    requires Head(s, b).Some?
  {
    Envelope([], WideCreates(a, b, x), Pin(digest, s, b), DEFAULT_BOOK, [])
  }

  ghost predicate CanIssue(s: State, a: AccountId, b: AccountId, x: AssetId) {
    && a != b && Open(s, a) && Open(s, b) && DEFAULT_BOOK !in s.books
    && Fits(LiveSum(s, OfHolder(a, x))) && Fits(LiveSum(s, OfHolder(b, x)))
  }

  ghost function LoadedForIssue(s: State, a: AccountId, b: AccountId, x: AssetId): Loaded
    requires CanIssue(s, a, b, x)
  {
    Loaded(
      [],
      map[a := Head(s, a).value, b := Head(s, b).value],
      map[(a, x) := LiveSum(s, OfHolder(a, x)), (b, x) := LiveSum(s, OfHolder(b, x))],
      None)
  }

  lemma {:induction false} WidePrefix(sl: Slice, a: AccountId, b: AccountId, x: AssetId, k: nat)
    requires k <= 0x1_0001
    ensures SumNew(sl, WideCreates(a, b, x)[..k]) ==
      (if k >= 1 && Covers(sl, b, x) then 1 else 0) - (if k == 0x1_0001 && Covers(sl, a, x) then 1 else 0)
  {
    if k > 0 {
      WidePrefix(sl, a, b, x, k - 1);
      assert WideCreates(a, b, x)[..k][..k - 1] == WideCreates(a, b, x)[..k - 1];
    }
  }

  lemma IssueRequires(digest: Digest, s: State, a: AccountId, b: AccountId, x: AssetId)
    requires CanIssue(s, a, b, x)
    ensures var e := WideIssue(digest, s, a, b, x);
      && (forall o :: o in Owners(e, []) <==> o == a || o == b)
      && (forall o :: o in Required(e, []).accounts <==> o == a || o == b)
      && (forall k :: k in Required(e, []).balances <==> k == (a, x) || k == (b, x))
  {
    var e := WideIssue(digest, s, a, b, x);
    hide LiveSum, SortDedup;
    var first, last := e.creates[0], e.creates[0x1_0000];
    assert first.owner == b && first.asset == x && last.owner == a && last.asset == x;
    assert forall i :: 0 <= i < |e.creates| ==> (e.creates[i].owner == a || e.creates[i].owner == b) && e.creates[i].asset == x;
    assert SnapshotAccounts(e) == [b];
    hide WideCreates, WideIssue;
    IssueOwners(e, a, b, x);
  }

  lemma IssueOwners(e: Envelope, a: AccountId, b: AccountId, x: AssetId)
    requires |e.creates| == 0x1_0001 && e.creates[0].owner == b && e.creates[0x1_0000].owner == a && SnapshotAccounts(e) == [b]
    requires forall i :: 0 <= i < |e.creates| ==> (e.creates[i].owner == a || e.creates[i].owner == b) && e.creates[i].asset == x
    ensures forall o :: o in Owners(e, []) <==> o == a || o == b
    ensures forall o :: o in Required(e, []).accounts <==> o == a || o == b
    ensures forall k :: k in Required(e, []).balances <==> k == (a, x) || k == (b, x)
  {
    hide SortDedup, OwnerWalk;
    IssueBalances(e, a, b, x);
    hide BalanceKeys;
    assert b in Owners(e, []) && a in Owners(e, []);
    hide Owners;
    assert forall o :: o in Owners(e, []) + [b] <==> o == a || o == b;
  }

  lemma IssueBalances(e: Envelope, a: AccountId, b: AccountId, x: AssetId)
    requires |e.creates| == 0x1_0001 && e.creates[0].owner == b && e.creates[0x1_0000].owner == a
    requires forall i :: 0 <= i < |e.creates| ==> (e.creates[i].owner == a || e.creates[i].owner == b) && e.creates[i].asset == x
    ensures forall k :: k in BalanceKeys(e, []) <==> k == (a, x) || k == (b, x)
  {
    hide SortDedup;
    var walk := KeyWalk(e, []);
    assert |walk| == 0x1_0001 && walk[0] == (b, x) && walk[0x1_0000] == (a, x);
    assert forall i :: 0 <= i < |walk| ==> walk[i] == (a, x) || walk[i] == (b, x);
    hide KeyWalk;
    assert (a, x) in walk && (b, x) in walk;
  }

  lemma IssueKeys(digest: Digest, s: State, a: AccountId, b: AccountId, x: AssetId)
    requires CanIssue(s, a, b, x)
    ensures var e, l := WideIssue(digest, s, a, b, x), LoadedForIssue(s, a, b, x);
      l.accounts.Keys == (set o | o in Required(e, l.consumed).accounts) && l.balances.Keys == (set key | key in Required(e, l.consumed).balances)
  {
    hide Required, LiveSum, Owners;
    IssueRequires(digest, s, a, b, x);
  }

  lemma IssueLoads(digest: Digest, s: State, a: AccountId, b: AccountId, x: AssetId)
    requires CanIssue(s, a, b, x)
    ensures LoadedNow(s, WideIssue(digest, s, a, b, x), LoadedForIssue(s, a, b, x))
  {
    hide Required, LiveSum, Owners, WideCreates;
    var past, l := [s], LoadedForIssue(s, a, b, x);
    assert PostingsRead(past[0], [], []);
    IssueKeys(digest, s, a, b, x);
    forall o | o in l.accounts ensures exists i :: 0 <= i < |past| && Head(past[i], o) == Some(l.accounts[o]) {
      assert Head(past[0], o) == Some(l.accounts[o]);
    }
    forall key | key in l.balances ensures exists i :: 0 <= i < |past| && l.balances[key] == LiveSum(past[i], Holding(key)) {
      assert l.balances[key] == LiveSum(past[0], Holding(key));
    }
  }

  lemma IssueArithmetic(a: AccountId, b: AccountId, x: AssetId, inp: PlanInput)
    requires a != b && inp.envelope.creates == WideCreates(a, b, x) && inp.envelope.consumes == []
    ensures Conserves(inp) && DeltasFit(inp)
  {
    forall sl: Slice, k | 0 <= k <= 0x1_0001
      ensures Created(inp, sl, k) == (if k >= 1 && Covers(sl, b, x) then 1 else 0) - (if k == 0x1_0001 && Covers(sl, a, x) then 1 else 0)
    {
      WidePrefix(sl, a, b, x, k);
    }
    forall sl: Slice ensures Consumed(inp, sl, 0) == 0 {
    }
    hide Created, Consumed, WideCreates;
  }

  lemma IssueAcceptable(digest: Digest, s: State, a: AccountId, b: AccountId, x: AssetId)
    requires CanIssue(s, a, b, x)
    ensures Acceptable(digest, InputOf(WideIssue(digest, s, a, b, x), LoadedForIssue(s, a, b, x)))
  {
    var inp := InputOf(WideIssue(digest, s, a, b, x), LoadedForIssue(s, a, b, x));
    IssueRequires(digest, s, a, b, x);
    IssueArithmetic(a, b, x, inp);
    IssueRules(digest, s, a, b, x);
    hide Conserves, DeltasFit, LiveSum, Required, WideCreates, OwnersUsable, NegativesPermitted, Owners, WideIssue, SnapshotsCurrent, Validate.Touched;
    TouchedOwned(inp);
    forall key | key in Validate.Touched(inp) ensures FloorOk(inp, key) {
    }
  }

  lemma IssueRules(digest: Digest, s: State, a: AccountId, b: AccountId, x: AssetId)
    requires CanIssue(s, a, b, x)
    ensures var inp := InputOf(WideIssue(digest, s, a, b, x), LoadedForIssue(s, a, b, x));
      && NonEmpty(inp) && inp.envelope.consumes == [] && Found(inp) && OwnersUsable(inp)
      && SnapshotsCurrent(digest, inp) && NegativesPermitted(inp) && inp.book.None?
  {
    IssueRequires(digest, s, a, b, x);
    var inp := InputOf(WideIssue(digest, s, a, b, x), LoadedForIssue(s, a, b, x));
    assert NegativesPermitted(inp) by { IssuePermitted(s, a, b, x); }
    hide Required, Owners, LiveSum, Rows, WideCreates, NegativesPermitted;
  }

  lemma IssuePermitted(s: State, a: AccountId, b: AccountId, x: AssetId)
    requires CanIssue(s, a, b, x)
    ensures forall i :: 0 <= i < |WideCreates(a, b, x)| ==> Permits(LoadedForIssue(s, a, b, x).accounts, WideCreates(a, b, x)[i])
  {
    hide LiveSum;
  }

  lemma IssueCommits(digest: Digest, s: State, a: AccountId, b: AccountId, x: AssetId, req: CommitRequest)
    requires CanIssue(s, a, b, x) && req.transferId !in s.transfers && req.consume == [] && req.record.receipt == Receipt(req.transferId)
    requires forall o :: o in req.involved <==> o == a || o == b
    ensures Commits(s, req, Applied(s, req), Ok(Committed(Receipt(req.transferId))))
  {
    hide LiveSum, Applied;
    AllOpen(s, req.involved);
    assert DoubleSpendGuard(s, []).None?;
    assert Guard(s, req).None?;
    assert FloorHolds(s, req);
    PassedCommits(s, req);
  }

  /** Two open accounts that may overdraw, and a balanced envelope validation accepts: one
      commit, and the live postings of the asset no longer sum to what they did. */
  lemma WideIssueLoses(digest: Digest, s: State, a: AccountId, b: AccountId, x: AssetId, ts: i64) returns (s': State)
    requires Inv(s) && CanIssue(s, a, b, x) && EnvelopeIdOf(digest, WideIssue(digest, s, a, b, x)) !in s.transfers
    ensures var e := WideIssue(digest, s, a, b, x); CommitsEnvelope(digest, s, e, ts, s', Ok(Receipt(EnvelopeIdOf(digest, e))))
    ensures LiveSum(s', OfAsset(x)) == LiveSum(s, OfAsset(x)) - 1
  {
    hide Inv, TablesOk, SpentOk, ProvenanceOk, LiveSum, Applied, EnvelopeIdOf, Acceptable, LoadedNow, Commits, WideCreates, PlannedPostings, Owners;
    var e, l := WideIssue(digest, s, a, b, x), LoadedForIssue(s, a, b, x);
    var req := RequestOf(digest, e, l, ts);
    s' := Applied(s, req);
    LogParts(s);
    IssueRequires(digest, s, a, b, x);
    IssueLoads(digest, s, a, b, x);
    IssueAcceptable(digest, s, a, b, x);
    IssueCommits(digest, s, a, b, x, req);
    WideCommitSum(s, req, OfAsset(x));
    LostUnit(a, b, x);
    var tid := EnvelopeIdOf(digest, e);
    assert Submitted(digest, s, e, l, ts, s', Ok(Committed(Receipt(tid))));
    assert AnswerOf(Ok(Committed(Receipt(tid)))) == Ok(Receipt(tid));
    assert WithSnapshots(digest, s, e) == Some(e);
  }

  lemma LostUnit(a: AccountId, b: AccountId, x: AssetId)
    ensures SumNew(OfAsset(x), Kept(WideCreates(a, b, x))) == -1
  {
    var creates := WideCreates(a, b, x);
    WidePrefix(OfAsset(x), a, b, x, 1);
    WidePrefix(OfAsset(x), a, b, x, 0x1_0001);
    LostAndKept(OfAsset(x), creates);
    assert creates[..0x1_0001] == creates && Lost(creates) == creates[..1];
  }

  /** Such a setting exists: registered accounts and an empty log are enough. */
  lemma IssueExists(a: AccountId, b: AccountId, c: AccountId, x: AssetId) returns (s: State)
    requires a != b && b != c && a != c
    ensures Inv(s) && CanIssue(s, a, b, x) && s.transfers == map[]
  {
    s := Registered(a, b, c);
    RegisteredInv(a, b, c);
    hide Inv;
    assert Live(s) == map[];
    assert Weights(OfHolder(a, x), Live(s)) == map[] && Weights(OfHolder(b, x), Live(s)) == map[];
  }

  /** From there one commit breaks the sum of the asset. */
  lemma WideIssueBreaks(digest: Digest, a: AccountId, b: AccountId, c: AccountId, x: AssetId, ts: i64) returns (s: State, s': State)
    requires a != b && b != c && a != c
    ensures Inv(s) && Head(s, b).Some?
    ensures var e := WideIssue(digest, s, a, b, x); CommitsEnvelope(digest, s, e, ts, s', Ok(Receipt(EnvelopeIdOf(digest, e))))
    ensures LiveSum(s, OfAsset(x)) == 0 && LiveSum(s', OfAsset(x)) == -1
  {
    s := IssueExists(a, b, c, x);
    hide Inv, LiveSum, CommitsEnvelope, WideIssue, EnvelopeIdOf;
    s' := WideIssueLoses(digest, s, a, b, x, ts);
    NothingLive(s, x);
  }

  lemma NothingLive(s: State, x: AssetId)
    requires Inv(s) && s.transfers == map[]
    ensures LiveSum(s, OfAsset(x)) == 0
  {
    LogParts(s);
    LiveRows(s);
    assert s.immutable == map[];
    hide Inv;
    assert Live(s) == map[];
    assert Weights(OfAsset(x), Live(s)) == map[];
  }
}

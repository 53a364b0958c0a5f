/** Balances: the authoritative live sum, and the everyday read that adds the folded
    tail of transfers to the closest cache point (crates/kuatia/src/ledger/balance.rs). */
module Balance {
  import opened Wrappers
  import opened Domain
  import opened Totals
  import opened Amounts
  import opened Store
  import opened Events
  import opened Query
  import opened Validate
  import opened MemStore
  import opened Runs
  import opened RunProofs
  import opened LedgerTheorems

  const I64_MAX: int := TWO63 - 1

  // ----- the sums the code must produce -----

  /** A transfer indexed under `a` and committed inside the window. */
  predicate Indexed(s: State, a: AccountId, from: Option<i64>, to: Option<i64>, t: EnvelopeId) {
    && t in s.transfers && t in s.participation && a in s.participation[t]
    && InWindow(s.transfers[t].createdAt, from, to)
  }

  /** One account's deltas over the indexed transfers of a time window. */
  ghost function WindowDeltas(s: State, a: AccountId, asset: AssetId, from: Option<i64>, to: Option<i64>): map<EnvelopeId, int> {
    map t | t in s.transfers && Indexed(s, a, from, to, t) :: Delta(s, t, OfHolder(a, asset))
  }

  ghost function WindowSum(s: State, a: AccountId, asset: AssetId, from: Option<i64>, to: Option<i64>): int {
    Total(WindowDeltas(s, a, asset, from, to))
  }

  /** A window cut at `mid` is the sum of its two halves. */
  lemma WindowSplit(s: State, a: AccountId, asset: AssetId, from: Option<i64>, mid: i64, to: Option<i64>)
    requires from.Some? ==> from.value <= mid
    requires to.Some? ==> mid <= to.value
    ensures WindowSum(s, a, asset, from, to) ==
      WindowSum(s, a, asset, from, Some(mid)) + WindowSum(s, a, asset, Some(mid), to)
  {
    TotalSplit(WindowDeltas(s, a, asset, from, to), WindowDeltas(s, a, asset, from, Some(mid)),
               WindowDeltas(s, a, asset, Some(mid), to));
  }

  lemma WholeWindow(s: State, a: AccountId, asset: AssetId)
    requires IndexOk(s) && SumsOk(s)
    ensures WindowSum(s, a, asset, None, None) == LiveSum(s, OfHolder(a, asset))
  {
    ReplayEqualsLive(s, a, asset);
    assert WindowDeltas(s, a, asset, None, None) == Replayed(s, a, asset);
  }

  /** How many postings of one slice a stored transfer created or consumed. */
  ghost function Moves(s: State, t: EnvelopeId, sl: Slice): int
    requires t in s.transfers
  {
    CountNew(sl, s.transfers[t].envelope.creates) + CountIds(sl, s.immutable, s.transfers[t].envelope.consumes)
  }

  ghost function WindowMoves(s: State, a: AccountId, asset: AssetId, from: Option<i64>, to: Option<i64>): int {
    Total(map t | t in s.transfers && Indexed(s, a, from, to, t) :: Moves(s, t, OfHolder(a, asset)))
  }

  // ----- reading the tail -----

  function Tid(r: EnvelopeRecord): EnvelopeId { r.receipt.transferId }

  /** `records` lists exactly the window's transfers of `a`, each once. */
  ghost predicate IsTail(s: State, a: AccountId, from: Option<i64>, to: Option<i64>, records: seq<EnvelopeRecord>) {
    && Distinct(records)
    && (forall i :: 0 <= i < |records| ==> Tid(records[i]) in s.transfers && s.transfers[Tid(records[i])] == records[i])
    && (forall t :: Indexed(s, a, from, to, t) ==> s.transfers[t] in records)
    && (forall i :: 0 <= i < |records| ==> Indexed(s, a, from, to, Tid(records[i])))
  }

  /** Insertion by commit time; ties keep their order. */
  function InsertByTime(r: EnvelopeRecord, sorted: seq<EnvelopeRecord>): (out: seq<EnvelopeRecord>)
    ensures multiset(out) == multiset(sorted) + multiset{r}
  {
    if sorted == [] then [r]
    else if sorted[|sorted| - 1].createdAt <= r.createdAt then sorted + [r]
    else
      assert sorted == sorted[..|sorted| - 1] + [sorted[|sorted| - 1]];
      InsertByTime(r, sorted[..|sorted| - 1]) + [sorted[|sorted| - 1]]
  }

  predicate InTimeOrder(records: seq<EnvelopeRecord>) {
    forall i, j :: 0 <= i < j < |records| ==> records[i].createdAt <= records[j].createdAt
  }

  lemma {:induction false} InsertInOrder(r: EnvelopeRecord, sorted: seq<EnvelopeRecord>)
    requires InTimeOrder(sorted)
    ensures InTimeOrder(InsertByTime(r, sorted))
  {
    if sorted != [] && sorted[|sorted| - 1].createdAt > r.createdAt {
      var n := |sorted| - 1;
      var out := InsertByTime(r, sorted[..n]);
      InsertInOrder(r, sorted[..n]);
      InsertMembers(r, sorted[..n]);
      assert InsertByTime(r, sorted) == out + [sorted[n]];
      hide InsertByTime;
      forall i | 0 <= i < |out| ensures out[i].createdAt <= sorted[n].createdAt {
        assert out[i] == r || out[i] in sorted[..n];
      }
    }
  }

  lemma InsertMembers(r: EnvelopeRecord, sorted: seq<EnvelopeRecord>)
    ensures forall i :: 0 <= i < |InsertByTime(r, sorted)| ==> InsertByTime(r, sorted)[i] == r || InsertByTime(r, sorted)[i] in sorted
  {
    var out := InsertByTime(r, sorted);
    hide InsertByTime;
    forall i | 0 <= i < |out| ensures out[i] == r || out[i] in sorted {
      assert out[i] in multiset(out);
    }
  }

  lemma MultisetMembers<T>(xs: seq<T>, ys: seq<T>)
    requires multiset(xs) == multiset(ys)
    ensures forall x :: x in xs <==> x in ys
    ensures Distinct(ys) ==> Distinct(xs)
  {
    forall x ensures x in xs <==> x in ys {
      assert x in multiset(xs) <==> x in multiset(ys);
    }
    if Distinct(ys) {
      DistinctCounts(ys);
      CountsDistinct(xs);
    }
  }

  lemma {:induction false} DistinctCounts<T>(ys: seq<T>)
    requires Distinct(ys)
    ensures forall x :: multiset(ys)[x] <= 1
  {
    if ys != [] {
      var n := |ys| - 1;
      DistinctCounts(ys[..n]);
      assert ys == ys[..n] + [ys[n]];
      assert ys[n] !in ys[..n];
    }
  }

  lemma {:induction false} CountsDistinct<T>(xs: seq<T>)
    requires forall x :: multiset(xs)[x] <= 1
    ensures Distinct(xs)
  {
    if xs != [] {
      var n := |xs| - 1;
      assert xs == xs[..n] + [xs[n]];
      forall x ensures multiset(xs[..n])[x] <= 1 {
        assert multiset(xs)[x] <= 1;
      }
      CountsDistinct(xs[..n]);
      assert multiset(xs)[xs[n]] == multiset(xs[..n])[xs[n]] + 1;
      assert xs[n] !in multiset(xs[..n]);
    }
  }

  ghost predicate IndexedUnder(s: State, a: AccountId, r: EnvelopeRecord)
    requires IndexOk(s)
  {
    Tid(r) in s.transfers && s.transfers[Tid(r)] == r && a in s.participation[Tid(r)]
  }

  /** `get_transfers_for_account`: the index walked in hash order, then sorted by commit time. */
  method GetTransfersForAccount(s: State, a: AccountId) returns (records: seq<EnvelopeRecord>)
    requires ProvenanceOk(s) && IndexOk(s)
    ensures Distinct(records) && |records| <= |s.transfers| && InTimeOrder(records)
    ensures forall r :: r in records <==> IndexedUnder(s, a, r)
  {
    var todo := s.participation.Keys;
    var found: seq<EnvelopeRecord> := [];
    while todo != {}
      invariant todo <= s.participation.Keys
      invariant Distinct(found) && |found| + |todo| <= |s.transfers|
      invariant forall r :: r in found <==> IndexedUnder(s, a, r) && Tid(r) !in todo
      decreases |todo|
    {
      var t :| t in todo;
      todo := todo - {t};
      if a in s.participation[t] && t in s.transfers {
        assert Tid(s.transfers[t]) == t && s.transfers[t] !in found;
        found := found + [s.transfers[t]];
      }
    }
    records := SortByTime(found);
    MultisetMembers(records, found);
    assert |records| == |multiset(records)| == |multiset(found)| == |found|;
  }

  method SortByTime(found: seq<EnvelopeRecord>) returns (sorted: seq<EnvelopeRecord>)
    ensures multiset(sorted) == multiset(found) && InTimeOrder(sorted)
  {
    sorted := [];
    for i := 0 to |found|
      invariant multiset(sorted) == multiset(found[..i]) && InTimeOrder(sorted)
    {
      assert found[..i + 1] == found[..i] + [found[i]];
      InsertInOrder(found[i], sorted);
      sorted := InsertByTime(found[i], sorted);
    }
    assert found[..|found|] == found;
  }

  /** `query_transfers` for one subaccount: its transfers by commit time, the window cut,
      and the page cut. */
  method QueryTransfers(s: State, a: AccountId, from: Option<i64>, to: Option<i64>) returns (records: seq<EnvelopeRecord>)
    requires ProvenanceOk(s) && IndexOk(s) && |s.transfers| <= U32_MAX
    ensures IsTail(s, a, from, to, records) && InTimeOrder(records)
  {
    var all := GetTransfersForAccount(s, a);
    var query := TransferQuery(from, to, None, None, None);
    var kept := FilterTransfers(all, query);
    FilterDistinct(all, query);
    FilterKeepsOrder(all, query, (x: EnvelopeRecord, y: EnvelopeRecord) => x.createdAt <= y.createdAt);
    records := Paginate(kept, query.offset, query.limit).items;
    TailOf(s, a, from, to, all, query, records);
  }

  lemma TailOf(
      s: State, a: AccountId, from: Option<i64>, to: Option<i64>, all: seq<EnvelopeRecord>, query: TransferQuery, records: seq<EnvelopeRecord>)
    requires ProvenanceOk(s) && IndexOk(s) && query == TransferQuery(from, to, None, None, None)
    requires (forall r :: r in all <==> IndexedUnder(s, a, r)) && records == FilterTransfers(all, query) && Distinct(records)
    ensures IsTail(s, a, from, to, records)
  {
    forall i | 0 <= i < |records| ensures IndexedUnder(s, a, records[i]) && InWindow(records[i].createdAt, from, to) {
      assert records[i] in records;
    }
    forall t | Indexed(s, a, from, to, t) ensures s.transfers[t] in records {
      assert Tid(s.transfers[t]) == t;
      assert IndexedUnder(s, a, s.transfers[t]);
    }
  }

  // ----- folding the tail -----

  function CreatesIn(records: seq<EnvelopeRecord>): seq<NewPosting> {
    if records == [] then []
    else CreatesIn(records[..|records| - 1]) + records[|records| - 1].envelope.creates
  }

  function ConsumedIn(records: seq<EnvelopeRecord>): seq<PostingId> {
    if records == [] then []
    else ConsumedIn(records[..|records| - 1]) + records[|records| - 1].envelope.consumes
  }

  /** First occurrences, in order. */
  function Dedup(ids: seq<PostingId>): (r: seq<PostingId>)
    ensures forall id :: id in r <==> id in ids
  {
    if ids == [] then []
    else
      var front := Dedup(ids[..|ids| - 1]);
      assert ids == ids[..|ids| - 1] + [ids[|ids| - 1]];
      if ids[|ids| - 1] in front then front else front + [ids[|ids| - 1]]
  }

  lemma {:induction false} DedupDistinct(ids: seq<PostingId>)
    requires Distinct(ids)
    ensures Dedup(ids) == ids
  {
    if ids != [] {
      DedupDistinct(ids[..|ids| - 1]);
      assert ids == ids[..|ids| - 1] + [ids[|ids| - 1]];
    }
  }

  function CountNew(sl: Slice, ps: seq<NewPosting>): nat {
    if ps == [] then 0
    else
      var p := ps[|ps| - 1];
      CountNew(sl, ps[..|ps| - 1]) + (if Covers(sl, p.owner, p.asset) then 1 else 0)
  }

  function CountIds(sl: Slice, rows: map<PostingId, Posting>, ids: seq<PostingId>): nat {
    if ids == [] then 0
    else
      var id := ids[|ids| - 1];
      CountIds(sl, rows, ids[..|ids| - 1]) + (if id in rows && Covers(sl, rows[id].owner, rows[id].asset) then 1 else 0)
  }

  /** What `fold_account_delta` must return: credits minus the deduplicated debits, and how
      many postings of the slice it saw. */
  function Folded(rows: map<PostingId, Posting>, sl: Slice, records: seq<EnvelopeRecord>): int {
    SumNew(sl, CreatesIn(records)) - SumIds(sl, rows, Dedup(ConsumedIn(records)))
  }

  function FoldedCount(rows: map<PostingId, Posting>, sl: Slice, records: seq<EnvelopeRecord>): nat {
    CountNew(sl, CreatesIn(records)) + CountIds(sl, rows, Dedup(ConsumedIn(records)))
  }

  /** A posting consumed again, by whatever record, is debited and counted once. */
  lemma RepeatedSpendCountsOnce(rows: map<PostingId, Posting>, sl: Slice, records: seq<EnvelopeRecord>, r: EnvelopeRecord)
    requires forall id :: id in r.envelope.consumes ==> id in ConsumedIn(records)
    ensures Folded(rows, sl, records + [r]) == Folded(rows, sl, records) + SumNew(sl, r.envelope.creates)
    ensures FoldedCount(rows, sl, records + [r]) == FoldedCount(rows, sl, records) + CountNew(sl, r.envelope.creates)
  {
    var all := records + [r];
    assert all[..|all| - 1] == records;
    DedupAbsorbs(ConsumedIn(records), r.envelope.consumes);
    SumNewAppend(sl, CreatesIn(records), r.envelope.creates);
    CountNewAppend(sl, CreatesIn(records), r.envelope.creates);
  }

  lemma {:induction false} DedupAbsorbs(a: seq<PostingId>, b: seq<PostingId>)
    requires forall id :: id in b ==> id in a
    ensures Dedup(a + b) == Dedup(a)
  {
    if b == [] {
      assert a + b == a;
    } else {
      DedupAbsorbs(a, b[..|b| - 1]);
      assert (a + b)[..|a + b| - 1] == a + b[..|b| - 1];
    }
  }

  /** Every partial sum of the credits is representable. */
  ghost predicate CreditsFit(sl: Slice, ps: seq<NewPosting>) { forall n :: 0 <= n <= |ps| ==> Fits(SumNew(sl, ps[..n])) }

  /** And so is every partial difference after them. */
  ghost predicate DebitsFit(sl: Slice, rows: map<PostingId, Posting>, credits: int, ids: seq<PostingId>) {
    forall n :: 0 <= n <= |ids| ==> Fits(credits - SumIds(sl, rows, ids[..n]))
  }

  ghost predicate FoldFits(rows: map<PostingId, Posting>, sl: Slice, records: seq<EnvelopeRecord>) {
    && CreditsFit(sl, CreatesIn(records))
    && DebitsFit(sl, rows, SumNew(sl, CreatesIn(records)), Dedup(ConsumedIn(records)))
  }

  datatype FoldError = FoldOverflow | PostingMissing

  lemma CreditsPush(sl: Slice, ps: seq<NewPosting>, p: NewPosting)
    requires CreditsFit(sl, ps)
    ensures CreditsFit(sl, ps + [p]) <==> Fits(SumNew(sl, ps + [p]))
    ensures SumNew(sl, ps + [p]) == SumNew(sl, ps) + (if Covers(sl, p.owner, p.asset) then p.value else 0)
    ensures CountNew(sl, ps + [p]) == CountNew(sl, ps) + (if Covers(sl, p.owner, p.asset) then 1 else 0)
  {
    var all := ps + [p];
    assert all[..|ps|] == ps && all[..|all|] == all;
    hide SumNew, CountNew;
    forall n | 0 <= n <= |ps| ensures Fits(SumNew(sl, all[..n])) {
      assert all[..n] == ps[..n];
    }
  }

  lemma CreditsPrefix(sl: Slice, ps: seq<NewPosting>, more: seq<NewPosting>)
    requires CreditsFit(sl, ps + more)
    ensures CreditsFit(sl, ps)
  {
    hide SumNew;
    forall n | 0 <= n <= |ps| ensures Fits(SumNew(sl, ps[..n])) {
      assert (ps + more)[..n] == ps[..n];
    }
  }

  /** One record's credits on top of `base`. */
  method AddCredits(a: AccountId, asset: AssetId, ghost base: seq<NewPosting>, start: (Cent, nat), creates: seq<NewPosting>)
    returns (r: Option<(Cent, nat)>)
    requires var sl := OfHolder(a, asset); CreditsFit(sl, base) && start == (SumNew(sl, base), CountNew(sl, base))
    ensures var sl := OfHolder(a, asset);
      && (r.Some? <==> CreditsFit(sl, base + creates))
      && (r.Some? ==> r.value == (SumNew(sl, base + creates), CountNew(sl, base + creates)))
  {
    var sl := OfHolder(a, asset);
    var delta: Cent, count: nat := start.0, start.1;
    ghost var done := base;
    hide SumNew, CountNew, CreditsFit;
    for j := 0 to |creates|
      invariant done == base + creates[..j]
      invariant CreditsFit(sl, done) && delta == SumNew(sl, done) && count == CountNew(sl, done)
    {
      var np := creates[j];
      CreditsPush(sl, done, np);
      assert done + [np] == base + creates[..j + 1];
      assert base + creates == done + [np] + creates[j + 1..];
      if np.owner == a && np.asset == asset {
        var next := Checked(delta + np.value);
        if next.Err? {
          if CreditsFit(sl, base + creates) { CreditsPrefix(sl, done + [np], creates[j + 1..]); }
          return None;
        }
        delta, count := next.value, count + 1;
      }
      done := done + [np];
    }
    assert done == base + creates;
    return Some((delta, count));
  }

  lemma {:induction false} CreatesPrefix(records: seq<EnvelopeRecord>, i: nat) returns (more: seq<NewPosting>)
    requires i <= |records|
    ensures CreatesIn(records) == CreatesIn(records[..i]) + more
  {
    if i == |records| {
      more := [];
      assert records[..i] == records;
    } else {
      var front := records[..|records| - 1];
      more := CreatesPrefix(front, i);
      assert front[..i] == records[..i];
      more := more + records[|records| - 1].envelope.creates;
    }
  }

  /** The credit side: created postings of the window, in record order. */
  method FoldCredits(a: AccountId, asset: AssetId, records: seq<EnvelopeRecord>) returns (r: Option<(Cent, nat)>)
    ensures var sl := OfHolder(a, asset);
      && (r.Some? <==> CreditsFit(sl, CreatesIn(records)))
      && (r.Some? ==> r.value == (SumNew(sl, CreatesIn(records)), CountNew(sl, CreatesIn(records))))
  {
    ghost var sl := OfHolder(a, asset);
    var sums: (Cent, nat) := (0, 0);
    for i := 0 to |records|
      invariant CreditsFit(sl, CreatesIn(records[..i]))
      invariant sums == (SumNew(sl, CreatesIn(records[..i])), CountNew(sl, CreatesIn(records[..i])))
    {
      assert records[..i + 1][..i] == records[..i];
      var next := AddCredits(a, asset, CreatesIn(records[..i]), sums, records[i].envelope.creates);
      if next.None? {
        ghost var more := CreatesPrefix(records, i + 1);
        if CreditsFit(sl, CreatesIn(records)) { CreditsPrefix(sl, CreatesIn(records[..i + 1]), more); }
        return None;
      }
      sums := next.value;
    }
    assert records[..|records|] == records;
    return Some(sums);
  }

  /** Every consumed id of the window, once. */
  method GatherConsumed(records: seq<EnvelopeRecord>) returns (ids: seq<PostingId>)
    ensures ids == Dedup(ConsumedIn(records))
  {
    ids := [];
    var seen: set<PostingId> := {};
    for i := 0 to |records|
      invariant ids == Dedup(ConsumedIn(records[..i])) && Lists(seen, ids)
    {
      assert records[..i + 1][..i] == records[..i];
      ids, seen := GatherFrom(ConsumedIn(records[..i]), ids, seen, records[i].envelope.consumes);
    }
    assert records[..|records|] == records;
  }

  ghost predicate Lists(seen: set<PostingId>, ids: seq<PostingId>) { forall id :: id in seen <==> id in ids }

  lemma DedupPush(ids: seq<PostingId>, id: PostingId)
    ensures Dedup(ids + [id]) == if id in Dedup(ids) then Dedup(ids) else Dedup(ids) + [id]
  {
    assert (ids + [id])[..|ids|] == ids;
  }

  method GatherFrom(ghost base: seq<PostingId>, ids0: seq<PostingId>, seen0: set<PostingId>, consumes: seq<PostingId>)
    returns (ids: seq<PostingId>, seen: set<PostingId>)
    requires ids0 == Dedup(base) && Lists(seen0, ids0)
    ensures ids == Dedup(base + consumes) && Lists(seen, ids)
  {
    ids, seen := ids0, seen0;
    ghost var done := base;
    hide Dedup;
    for j := 0 to |consumes|
      invariant done == base + consumes[..j]
      invariant ids == Dedup(done) && Lists(seen, ids)
    {
      DedupPush(done, consumes[j]);
      assert done + [consumes[j]] == base + consumes[..j + 1];
      done := done + [consumes[j]];
      if consumes[j] !in seen {
        seen := seen + {consumes[j]};
        ids := ids + [consumes[j]];
      }
    }
    assert done == base + consumes;
  }

  /** `get_postings`: one row per id, in order, or nothing. */
  method GetPostings(rows: map<PostingId, Posting>, ids: seq<PostingId>) returns (r: Option<seq<Posting>>)
    ensures r.Some? <==> forall id :: id in ids ==> id in rows
    ensures r.Some? ==> |r.value| == |ids| && forall i :: 0 <= i < |ids| ==> r.value[i] == rows[ids[i]]
  {
    var out: seq<Posting> := [];
    for i := 0 to |ids|
      invariant |out| == i && forall j :: 0 <= j < i ==> ids[j] in rows && out[j] == rows[ids[j]]
    {
      if ids[i] !in rows { return None; }
      out := out + [rows[ids[i]]];
    }
    return Some(out);
  }

  lemma DebitsPush(sl: Slice, rows: map<PostingId, Posting>, ids: seq<PostingId>, i: nat)
    requires i < |ids| && ids[i] in rows
    ensures var p := rows[ids[i]];
      && SumIds(sl, rows, ids[..i + 1]) == SumIds(sl, rows, ids[..i]) + (if Covers(sl, p.owner, p.asset) then p.value else 0)
      && CountIds(sl, rows, ids[..i + 1]) == CountIds(sl, rows, ids[..i]) + (if Covers(sl, p.owner, p.asset) then 1 else 0)
  {
    assert ids[..i + 1][..i] == ids[..i];
  }

  /** The debit side: the named rows subtracted one by one. */
  method FoldDebits(rows: map<PostingId, Posting>, a: AccountId, asset: AssetId, credits: (Cent, nat), ids: seq<PostingId>)
    returns (r: Option<(Cent, nat)>)
    requires forall id :: id in ids ==> id in rows
    ensures var sl := OfHolder(a, asset);
      && (r.Some? <==> DebitsFit(sl, rows, credits.0, ids))
      && (r.Some? ==> r.value == (credits.0 - SumIds(sl, rows, ids), credits.1 + CountIds(sl, rows, ids)))
  {
    ghost var sl := OfHolder(a, asset);
    var postings := GetPostings(rows, ids);
    var delta: Cent, count: nat := credits.0, credits.1;
    for i := 0 to |ids|
      invariant delta == credits.0 - SumIds(sl, rows, ids[..i]) && count == credits.1 + CountIds(sl, rows, ids[..i])
      invariant forall n :: 0 <= n <= i ==> Fits(credits.0 - SumIds(sl, rows, ids[..n]))
    {
      DebitsPush(sl, rows, ids, i);
      var p := postings.value[i];
      if p.owner == a && p.asset == asset {
        var next := Checked(delta - p.value);
        if next.Err? {
          assert !Fits(credits.0 - SumIds(sl, rows, ids[..i + 1]));
          return None;
        }
        delta, count := next.value, count + 1;
      }
    }
    assert ids[..|ids|] == ids;
    return Some((delta, count));
  }

  /** `fold_account_delta`: it overflows exactly when a partial sum does, and misses a
      posting exactly when a consumed id names no row. */
  method FoldAccountDelta(rows: map<PostingId, Posting>, a: AccountId, asset: AssetId, records: seq<EnvelopeRecord>)
    returns (r: Result<(Cent, nat), FoldError>)
    ensures var sl := OfHolder(a, asset); var found := forall id :: id in ConsumedIn(records) ==> id in rows;
      && (r.Ok? ==> r.value == (Folded(rows, sl, records), FoldedCount(rows, sl, records)))
      && (r.Ok? <==> found && FoldFits(rows, sl, records))
      && (r == Err(PostingMissing) <==> !found && CreditsFit(sl, CreatesIn(records)))
  {
    hide SumNew, SumIds, CountNew, CountIds, CreditsFit, DebitsFit, CreatesIn, ConsumedIn;
    var credits := FoldCredits(a, asset, records);
    if credits.None? { return Err(FoldOverflow); }
    var ids := GatherConsumed(records);
    if exists id :: id in ids && id !in rows { return Err(PostingMissing); }
    var sums := FoldDebits(rows, a, asset, credits.value, ids);
    if sums.None? { return Err(FoldOverflow); }
    return Ok(sums.value);
  }

  // ----- the fold is the window sum -----

  ghost function TidSet(records: seq<EnvelopeRecord>): set<EnvelopeId> {
    set i | 0 <= i < |records| :: Tid(records[i])
  }

  ghost function DeltasOf(s: State, sl: Slice, ts: set<EnvelopeId>): map<EnvelopeId, int> {
    map t | t in ts && t in s.transfers :: Delta(s, t, sl)
  }

  /** Records of the store, each transfer once. */
  ghost predicate Stored(s: State, records: seq<EnvelopeRecord>) {
    && (forall i :: 0 <= i < |records| ==> Tid(records[i]) in s.transfers && s.transfers[Tid(records[i])] == records[i])
    && (forall i, j :: 0 <= i < j < |records| ==> Tid(records[i]) != Tid(records[j]))
  }

  lemma TidSetSnoc(records: seq<EnvelopeRecord>)
    requires records != []
    ensures TidSet(records) == TidSet(records[..|records| - 1]) + {Tid(records[|records| - 1])}
  {
    var n := |records| - 1;
    forall i | 0 <= i < n ensures Tid(records[i]) in TidSet(records[..n]) {
      assert records[..n][i] == records[i];
    }
    forall i | 0 <= i < n ensures Tid(records[..n][i]) in TidSet(records) {
      assert records[..n][i] == records[i];
    }
  }

  lemma DistinctConcat(x: seq<PostingId>, y: seq<PostingId>)
    requires Distinct(x) && Distinct(y) && forall id :: id in x ==> id !in y
    ensures Distinct(x + y)
  {
    forall i, j | 0 <= i < j < |x + y| ensures (x + y)[i] != (x + y)[j] {
      assert i < |x| ==> (x + y)[i] in x;
      assert j >= |x| ==> (x + y)[j] in y;
    }
  }

  lemma {:induction false} ConsumedSource(records: seq<EnvelopeRecord>, id: PostingId)
    requires id in ConsumedIn(records)
    ensures exists i :: 0 <= i < |records| && id in records[i].envelope.consumes
  {
    var n := |records| - 1;
    if id in records[n].envelope.consumes {
    } else {
      ConsumedSource(records[..n], id);
      var i :| 0 <= i < n && id in records[..n][i].envelope.consumes;
      assert records[i] == records[..n][i];
    }
  }

  /** Distinct transfers consume distinct postings, so the dedup drops nothing. */
  lemma {:induction false} ConsumedDistinct(s: State, records: seq<EnvelopeRecord>)
    requires SpentOk(s) && Stored(s, records)
    ensures Distinct(ConsumedIn(records))
  {
    if records != [] {
      var n := |records| - 1;
      var front, last := records[..n], records[n];
      ConsumedDistinct(s, front);
      assert Distinct(Consumes(s, Tid(last)));
      forall id | id in ConsumedIn(front) ensures id !in last.envelope.consumes {
        ConsumedSource(front, id);
        var i :| 0 <= i < |front| && id in front[i].envelope.consumes;
        assert id in Consumes(s, Tid(records[i])) && Tid(records[i]) != Tid(last);
      }
      DistinctConcat(ConsumedIn(front), last.envelope.consumes);
    }
  }

  lemma FoldStep(s: State, sl: Slice, records: seq<EnvelopeRecord>)
    requires Stored(s, records) && records != []
    ensures var n := |records| - 1;
      Total(DeltasOf(s, sl, TidSet(records))) ==
      Total(DeltasOf(s, sl, TidSet(records[..n]))) + Delta(s, Tid(records[n]), sl)
  {
    var n := |records| - 1;
    var t := Tid(records[n]);
    var before := DeltasOf(s, sl, TidSet(records[..n]));
    TidSetSnoc(records);
    assert t !in before;
    TotalInsert(before, t, Delta(s, t, sl));
    assert DeltasOf(s, sl, TidSet(records)) == before[t := Delta(s, t, sl)];
  }

  lemma {:induction false} FoldIsTotal(s: State, sl: Slice, records: seq<EnvelopeRecord>)
    requires Stored(s, records)
    ensures SumNew(sl, CreatesIn(records)) - SumIds(sl, s.immutable, ConsumedIn(records)) == Total(DeltasOf(s, sl, TidSet(records)))
  {
    hide TidSet, DeltasOf, Total;
    if records == [] {
      EmptyFold(s, sl);
    } else {
      var n := |records| - 1;
      FoldIsTotal(s, sl, records[..n]);
      SumNewAppend(sl, CreatesIn(records[..n]), records[n].envelope.creates);
      SumIdsAppend(sl, s.immutable, ConsumedIn(records[..n]), records[n].envelope.consumes);
      FoldStep(s, sl, records);
    }
  }

  lemma EmptyFold(s: State, sl: Slice)
    ensures Total(DeltasOf(s, sl, TidSet([]))) == 0
  {
    assert DeltasOf(s, sl, TidSet([])) == map[];
  }

  lemma TailStored(s: State, a: AccountId, from: Option<i64>, to: Option<i64>, records: seq<EnvelopeRecord>)
    requires IsTail(s, a, from, to, records)
    ensures Stored(s, records)
  {
  }

  lemma TailDeltas(s: State, a: AccountId, asset: AssetId, from: Option<i64>, to: Option<i64>, records: seq<EnvelopeRecord>)
    requires ProvenanceOk(s) && IsTail(s, a, from, to, records)
    ensures DeltasOf(s, OfHolder(a, asset), TidSet(records)) == WindowDeltas(s, a, asset, from, to)
  {
    forall t | Indexed(s, a, from, to, t) ensures t in TidSet(records) {
      var i :| 0 <= i < |records| && records[i] == s.transfers[t];
      assert Tid(records[i]) == t;
    }
  }

  ghost function MovesOf(s: State, sl: Slice, ts: set<EnvelopeId>): map<EnvelopeId, int> {
    map t | t in ts && t in s.transfers :: Moves(s, t, sl)
  }

  lemma CountStep(s: State, sl: Slice, records: seq<EnvelopeRecord>)
    requires Stored(s, records) && records != []
    ensures var n := |records| - 1;
      Total(MovesOf(s, sl, TidSet(records))) ==
      Total(MovesOf(s, sl, TidSet(records[..n]))) + Moves(s, Tid(records[n]), sl)
  {
    var n := |records| - 1;
    var t := Tid(records[n]);
    var before := MovesOf(s, sl, TidSet(records[..n]));
    TidSetSnoc(records);
    assert t !in before;
    TotalInsert(before, t, Moves(s, t, sl));
    assert MovesOf(s, sl, TidSet(records)) == before[t := Moves(s, t, sl)];
  }

  lemma {:induction false} CountNewAppend(sl: Slice, a: seq<NewPosting>, b: seq<NewPosting>)
    ensures CountNew(sl, a + b) == CountNew(sl, a) + CountNew(sl, b)
  {
    if b == [] {
      assert a + b == a;
    } else {
      CountNewAppend(sl, a, b[..|b| - 1]);
      assert (a + b)[..|a + b| - 1] == a + b[..|b| - 1];
    }
  }

  lemma {:induction false} CountIdsAppend(sl: Slice, rows: map<PostingId, Posting>, a: seq<PostingId>, b: seq<PostingId>)
    ensures CountIds(sl, rows, a + b) == CountIds(sl, rows, a) + CountIds(sl, rows, b)
  {
    if b == [] {
      assert a + b == a;
    } else {
      CountIdsAppend(sl, rows, a, b[..|b| - 1]);
      assert (a + b)[..|a + b| - 1] == a + b[..|b| - 1];
    }
  }

  lemma {:induction false} CountIsTotal(s: State, sl: Slice, records: seq<EnvelopeRecord>)
    requires Stored(s, records)
    ensures CountNew(sl, CreatesIn(records)) + CountIds(sl, s.immutable, ConsumedIn(records)) == Total(MovesOf(s, sl, TidSet(records)))
  {
    hide TidSet, MovesOf, Total;
    if records == [] {
      NoMoves(s, sl);
    } else {
      var n := |records| - 1;
      CountIsTotal(s, sl, records[..n]);
      CountNewAppend(sl, CreatesIn(records[..n]), records[n].envelope.creates);
      CountIdsAppend(sl, s.immutable, ConsumedIn(records[..n]), records[n].envelope.consumes);
      CountStep(s, sl, records);
    }
  }

  lemma NoMoves(s: State, sl: Slice)
    ensures Total(MovesOf(s, sl, TidSet([]))) == 0
  {
    assert MovesOf(s, sl, TidSet([])) == map[];
  }

  lemma TailMoves(s: State, a: AccountId, asset: AssetId, from: Option<i64>, to: Option<i64>, records: seq<EnvelopeRecord>)
    requires ProvenanceOk(s) && IsTail(s, a, from, to, records)
    ensures Total(MovesOf(s, OfHolder(a, asset), TidSet(records))) == WindowMoves(s, a, asset, from, to)
  {
    forall t | Indexed(s, a, from, to, t) ensures t in TidSet(records) {
      var i :| 0 <= i < |records| && records[i] == s.transfers[t];
      assert Tid(records[i]) == t;
    }
    assert MovesOf(s, OfHolder(a, asset), TidSet(records))
      == map t | t in s.transfers && Indexed(s, a, from, to, t) :: Moves(s, t, OfHolder(a, asset));
  }

  /** Nothing the window consumed is missing from the posting table. */
  lemma TailFound(s: State, records: seq<EnvelopeRecord>, id: PostingId)
    requires SpentOk(s) && Stored(s, records) && id in ConsumedIn(records)
    ensures id in s.immutable
  {
    ConsumedSource(records, id);
    var i :| 0 <= i < |records| && id in records[i].envelope.consumes;
    assert id in Consumes(s, Tid(records[i]));
  }

  /** Folding the tail read from a consistent store gives the window's sum and count. */
  lemma TailFold(s: State, a: AccountId, asset: AssetId, from: Option<i64>, to: Option<i64>, records: seq<EnvelopeRecord>)
    requires ProvenanceOk(s) && SpentOk(s) && IsTail(s, a, from, to, records)
    ensures Folded(s.immutable, OfHolder(a, asset), records) == WindowSum(s, a, asset, from, to)
    ensures FoldedCount(s.immutable, OfHolder(a, asset), records) == WindowMoves(s, a, asset, from, to)
    ensures forall id :: id in ConsumedIn(records) ==> id in s.immutable
  {
    hide ProvenanceOk, SpentOk, IsTail, Stored, Total, DeltasOf, MovesOf, WindowDeltas, WindowMoves;
    TailStored(s, a, from, to, records);
    ConsumedDistinct(s, records);
    DedupDistinct(ConsumedIn(records));
    FoldIsTotal(s, OfHolder(a, asset), records);
    CountIsTotal(s, OfHolder(a, asset), records);
    TailDeltas(s, a, asset, from, to, records);
    TailMoves(s, a, asset, from, to, records);
    forall id | id in ConsumedIn(records) ensures id in s.immutable {
      TailFound(s, records, id);
    }
  }

  // ----- the reads -----

  function SaturatingSub(x: i64, y: i64): i64 {
    var d := x as int - y as int;
    if d < -TWO63 then -TWO63 else if d > I64_MAX then I64_MAX else d
  }

  function SaturatingAdd(x: i64, y: i64): i64 {
    var d := x as int + y as int;
    if d < -TWO63 then -TWO63 else if d > I64_MAX then I64_MAX else d
  }

  /** The tables a balance read relies on. */
  ghost predicate Consistent(s: State) {
    TablesOk(s) && ProvenanceOk(s) && SpentOk(s) && IndexOk(s) && SumsOk(s) && |s.transfers| <= U32_MAX
  }

  /** Folding the window in commit order leaves the representable range on the way. */
  ghost predicate CannotFold(s: State, a: AccountId, asset: AssetId, from: Option<i64>, to: Option<i64>) {
    exists records :: IsTail(s, a, from, to, records) && InTimeOrder(records) && !FoldFits(s.immutable, OfHolder(a, asset), records)
  }

  /** `fold_tail`. */
  method FoldTail(s: State, a: AccountId, asset: AssetId, from: Option<i64>, to: Option<i64>)
    returns (r: Result<(Cent, nat), FoldError>)
    requires Consistent(s)
    ensures r.Ok? ==> r.value == (WindowSum(s, a, asset, from, to), WindowMoves(s, a, asset, from, to))
    ensures r.Err? ==> r.error == FoldOverflow && CannotFold(s, a, asset, from, to)
  {
    hide IsTail, InTimeOrder, FoldFits, WindowSum, WindowMoves, Folded, FoldedCount, ConsumedIn, CreatesIn, CreditsFit;
    var records := QueryTransfers(s, a, from, to);
    TailFold(s, a, asset, from, to, records);
    r := FoldAccountDelta(s.immutable, a, asset, records);
  }

  /** A balance some summation order cannot add up in 64 bits. */
  ghost predicate Unsummable(s: State, a: AccountId, asset: AssetId) { !Summable(OfHolder(a, asset), Live(s)) }

  /** `compute_balance`: the live rows, summed in any order. */
  method ComputeBalance(s: State, a: AccountId, asset: AssetId) returns (r: Option<Cent>)
    ensures r.Some? ==> r.value == LiveSum(s, OfHolder(a, asset))
    ensures r.None? ==> Unsummable(s, a, asset)
  {
    var live := Live(s);
    r := InMemoryStore.SurvivingSum(live, {}, a, asset);
    assert live - {} == live;
  }

  predicate Closest(points: seq<BalanceProjection>, asOf: i64, c: BalanceProjection) {
    && c in points && c.watermark <= asOf
    && forall p :: p in points && p.watermark <= asOf ==> p.watermark < c.watermark || (p.watermark == c.watermark && p.id <= c.id)
  }

  predicate NonePast(points: seq<BalanceProjection>, asOf: i64) { forall p :: p in points ==> p.watermark > asOf }

  /** `get_closest_balance_projection`: the latest watermark at or before `asOf`, and of
      points with the same watermark one with the largest id. */
  method ClosestProjection(points: seq<BalanceProjection>, asOf: i64) returns (r: Option<BalanceProjection>)
    ensures r.Some? ==> Closest(points, asOf, r.value)
    ensures r.None? ==> NonePast(points, asOf)
  {
    r := None;
    for i := 0 to |points|
      invariant r.Some? ==> r.value in points && r.value.watermark <= asOf
      invariant r.Some? ==> forall j :: 0 <= j < i && points[j].watermark <= asOf ==>
        points[j].watermark < r.value.watermark || (points[j].watermark == r.value.watermark && points[j].id <= r.value.id)
      invariant r.None? ==> forall j :: 0 <= j < i ==> points[j].watermark > asOf
    {
      var p := points[i];
      if p.watermark <= asOf {
        if r.None? || r.value.watermark < p.watermark || (r.value.watermark == p.watermark && r.value.id <= p.id) {
          r := Some(p);
        }
      }
    }
  }

  /** A cache point holds the account's deltas up to and including its watermark. */
  ghost predicate PointOk(s: State, a: AccountId, asset: AssetId, p: BalanceProjection) {
    p.watermark < I64_MAX && p.balance == WindowSum(s, a, asset, None, Some(p.watermark + 1))
  }

  ghost predicate PointsOk(s: State) {
    forall a: AccountId, asset: AssetId, p :: p in PointsOf(s, a, asset) ==> PointOk(s, a, asset, p)
  }

  /** Any correct cache point plus its tail is the live balance. */
  lemma PointPlusTail(s: State, a: AccountId, asset: AssetId, p: BalanceProjection)
    requires Consistent(s) && PointsOk(s) && p in PointsOf(s, a, asset)
    ensures p.watermark < I64_MAX
    ensures p.balance + WindowSum(s, a, asset, Some(p.watermark + 1), None) == LiveSum(s, OfHolder(a, asset))
  {
    assert PointOk(s, a, asset, p);
    RightPlusTail(s, a, asset, p);
  }

  lemma RightPlusTail(s: State, a: AccountId, asset: AssetId, p: BalanceProjection)
    requires IndexOk(s) && SumsOk(s) && PointOk(s, a, asset, p)
    ensures p.balance + WindowSum(s, a, asset, Some(p.watermark + 1), None) == LiveSum(s, OfHolder(a, asset))
  {
    WindowSplit(s, a, asset, None, p.watermark + 1, None);
    WholeWindow(s, a, asset);
  }

  /** The read from cache point `p` overflows: folding its tail, or adding it up. */
  ghost predicate CannotRead(s: State, a: AccountId, asset: AssetId, p: BalanceProjection)
    requires p.watermark < I64_MAX
  {
    CannotFold(s, a, asset, Some(p.watermark + 1), None) || !Fits(LiveSum(s, OfHolder(a, asset)))
  }

  /** The tail after `p` is long enough to earn a new point. */
  ghost predicate LongTail(s: State, a: AccountId, asset: AssetId, p: BalanceProjection, interval: nat)
    requires p.watermark < I64_MAX
  {
    WindowMoves(s, a, asset, Some(p.watermark + 1), None) >= interval
  }

  /** `balance`: the closest cache point plus the tail after it, or the live sum when
      there is no point yet.  Whatever it returns is the authoritative balance; it fails
      only by an overflow on the way, and asks for a new point without one or after a
      long tail. */
  method ReadBalance(s: State, now: i64, interval: nat, a: AccountId, asset: AssetId)
    returns (r: Result<Cent, FoldError>, refresh: bool)
    requires Consistent(s) && PointsOk(s)
    ensures r.Ok? ==> r.value == LiveSum(s, OfHolder(a, asset))
    ensures r.Err? && NonePast(PointsOf(s, a, asset), now) ==> r.error == FoldOverflow && Unsummable(s, a, asset)
    ensures r.Err? && !NonePast(PointsOf(s, a, asset), now) ==> r.error == FoldOverflow
    ensures r.Err? && !NonePast(PointsOf(s, a, asset), now) ==>
      exists p :: Closest(PointsOf(s, a, asset), now, p) && p.watermark < I64_MAX && CannotRead(s, a, asset, p)
    ensures r.Ok? && (NonePast(PointsOf(s, a, asset), now) || interval == 0) ==> refresh
    ensures r.Ok? && !NonePast(PointsOf(s, a, asset), now) ==>
      exists p :: Closest(PointsOf(s, a, asset), now, p) && p.watermark < I64_MAX && (refresh <==> LongTail(s, a, asset, p, interval))
  {
    hide Consistent, PointsOk, WindowSum, WindowMoves, CannotFold, Unsummable, LiveSum;
    refresh := false;
    var closest := ClosestProjection(PointsOf(s, a, asset), now);
    if closest.Some? {
      var p := closest.value;
      PointPlusTail(s, a, asset, p);
      var tail := FoldTail(s, a, asset, Some(SaturatingAdd(p.watermark, 1)), None);
      if tail.Err? { return Err(tail.error), refresh; }
      refresh := tail.value.1 >= interval;
      assert refresh <==> LongTail(s, a, asset, p, interval);
      var sum := Checked(p.balance as int + tail.value.0 as int);
      if sum.Err? { return Err(FoldOverflow), refresh; }
      return Ok(sum.value), refresh;
    }
    var live := ComputeBalance(s, a, asset);
    if live.None? { return Err(FoldOverflow), refresh; }
    return Ok(live.value), true;
  }

  /** How a new point is computed: from nothing, or from an earlier point, by folding
      the transfers of one state. */
  ghost predicate PointFrom(past: seq<State>, q: nat, a: AccountId, asset: AssetId, p: BalanceProjection)
    requires q < |past|
  {
    && p.watermark < I64_MAX
    && (|| p.balance == WindowSum(past[q], a, asset, None, Some(p.watermark + 1))
        || exists q0, p0 :: 0 <= q0 <= q && p0 in PointsOf(past[q0], a, asset) && p0.watermark < p.watermark
             && p.balance == p0.balance + WindowSum(past[q], a, asset, Some(p0.watermark + 1), Some(p.watermark + 1)))
  }

  /** Where the fold of a new point at `watermark` starts. */
  ghost predicate FoldsFrom(s: State, watermark: i64, a: AccountId, asset: AssetId, from: Option<i64>) {
    var points := PointsOf(s, a, asset);
    (NonePast(points, watermark) && from.None?)
    || (from.Some? && exists p :: Closest(points, watermark, p) && p.watermark < I64_MAX && from == Some(p.watermark + 1))
  }

  /** A point at `watermark` is due: the closest one is older, by the debounce interval, and
      enough postings have moved since. */
  ghost predicate Due(s: State, watermark: i64, minNew: nat, debounce: i64, a: AccountId, asset: AssetId)
    requires watermark < I64_MAX
  {
    exists from :: FoldsFrom(s, watermark, a, asset, from) && Gates(s, watermark, minNew, debounce, a, asset, from)
  }

  ghost predicate Gates(s: State, watermark: i64, minNew: nat, debounce: i64, a: AccountId, asset: AssetId, from: Option<i64>)
    requires watermark < I64_MAX
  {
    && (from.Some? ==> from.value <= watermark && watermark - from.value + 1 >= debounce)
    && WindowMoves(s, a, asset, from, Some(watermark + 1)) >= minNew
  }

  /** The closest point leaves only one place to start. */
  lemma FoldsFromOnce(s: State, watermark: i64, a: AccountId, asset: AssetId, from: Option<i64>, other: Option<i64>)
    requires FoldsFrom(s, watermark, a, asset, from) && FoldsFrom(s, watermark, a, asset, other)
    ensures from == other
  {
  }

  lemma DueFrom(s: State, watermark: i64, minNew: nat, debounce: i64, a: AccountId, asset: AssetId, from: Option<i64>)
    requires watermark < I64_MAX && FoldsFrom(s, watermark, a, asset, from)
    ensures Due(s, watermark, minNew, debounce, a, asset) <==> Gates(s, watermark, minNew, debounce, a, asset, from)
  {
    hide FoldsFrom, Gates;
    forall other | FoldsFrom(s, watermark, a, asset, other) ensures other == from {
      FoldsFromOnce(s, watermark, a, asset, from, other);
    }
  }

  /** Computing the point overflows: folding its window, or the whole sum below it. */
  ghost predicate CannotPoint(s: State, watermark: i64, a: AccountId, asset: AssetId)
    requires watermark < I64_MAX
  {
    exists from :: FoldsFrom(s, watermark, a, asset, from) && PointOverflows(s, watermark, a, asset, from)
  }

  ghost predicate PointOverflows(s: State, watermark: i64, a: AccountId, asset: AssetId, from: Option<i64>)
    requires watermark < I64_MAX
  {
    || CannotFold(s, a, asset, from, Some(watermark + 1))
    || exists p :: Closest(PointsOf(s, a, asset), watermark, p) && !Fits(p.balance + WindowSum(s, a, asset, from, Some(watermark + 1)))
  }

  /** The point `append_cache_point` would append: one is computed exactly when it is due,
      unless the sum overflows. */
  method NextCachePoint(s: State, watermark: i64, minNew: nat, debounce: i64, a: AccountId, asset: AssetId, id: i64)
    returns (r: Result<Option<BalanceProjection>, FoldError>)
    requires Consistent(s) && watermark < I64_MAX
    ensures r.Ok? && r.value.Some? ==> r.value.value.watermark == watermark && PointFrom([s], 0, a, asset, r.value.value)
    ensures r.Ok? ==> (r.value.Some? <==> Due(s, watermark, minNew, debounce, a, asset))
    ensures r.Ok? && minNew == 0 && NonePast(PointsOf(s, a, asset), watermark) ==> r.value.Some?
    ensures r.Err? ==> r.error == FoldOverflow && CannotPoint(s, watermark, a, asset)
  {
    hide Consistent, WindowSum, WindowMoves, CannotFold;
    var points := PointsOf(s, a, asset);
    var closest := ClosestProjection(points, watermark);
    if closest.None? {
      assert FoldsFrom(s, watermark, a, asset, None);
      DueFrom(s, watermark, minNew, debounce, a, asset, None);
      var fold := FoldTail(s, a, asset, None, Some(SaturatingAdd(watermark, 1)));
      if fold.Err? {
        assert PointOverflows(s, watermark, a, asset, None);
        return Err(fold.error);
      }
      if fold.value.1 < minNew { return Ok(None); }
      return Ok(Some(BalanceProjection(id, fold.value.0, watermark)));
    }
    var p := closest.value;
    var from: Option<i64> := Some(SaturatingAdd(p.watermark, 1));
    assert Closest(points, watermark, p) && FoldsFrom(s, watermark, a, asset, from);
    DueFrom(s, watermark, minNew, debounce, a, asset, from);
    if SaturatingSub(watermark, p.watermark) < debounce { return Ok(None); }
    if p.watermark >= watermark { return Ok(None); }
    var fold := FoldTail(s, a, asset, from, Some(SaturatingAdd(watermark, 1)));
    if fold.Err? {
      assert PointOverflows(s, watermark, a, asset, from);
      return Err(fold.error);
    }
    if fold.value.1 < minNew { return Ok(None); }
    var balance := Checked(p.balance as int + fold.value.0 as int);
    if balance.Err? {
      assert PointOverflows(s, watermark, a, asset, from);
      return Err(FoldOverflow);
    }
    assert p in PointsOf([s][0], a, asset);
    return Ok(Some(BalanceProjection(id, balance.value, watermark)));
  }

  /** `append_cache_point`: compute the point and append it, or leave the store alone. */
  method AppendCachePoint(
    store: InMemoryStore, now: i64, grace: i64, minNew: nat, debounce: i64, a: AccountId, asset: AssetId, id: i64)
    returns (r: Result<Option<BalanceProjection>, FoldError>)
    requires Consistent(store.View()) && SaturatingSub(now, grace) < I64_MAX
    modifies store`projections
    ensures r.Ok? && r.value.Some? ==>
      && r.value.value.watermark == SaturatingSub(now, grace)
      && PointFrom([old(store.View())], 0, a, asset, r.value.value)
      && store.View() == AppendProjection(old(store.View()), a, asset, r.value.value)
    ensures r.Ok? ==> (r.value.Some? <==> Due(old(store.View()), SaturatingSub(now, grace), minNew, debounce, a, asset))
    ensures r.Err? ==> r.error == FoldOverflow && CannotPoint(old(store.View()), SaturatingSub(now, grace), a, asset)
    ensures !(r.Ok? && r.value.Some?) ==> store.View() == old(store.View())
  {
    hide Consistent, Due, CannotPoint, PointFrom;
    r := NextCachePoint(store.View(), SaturatingSub(now, grace), minNew, debounce, a, asset, id);
    if r.Ok? && r.value.Some? {
      store.AppendBalanceProjection(a, asset, r.value.value);
    }
  }

  // ----- every run -----

  /** A run whose cache points were computed by `append_cache_point` from earlier
      states: `queries[i]` is the state step `i` folded.  The grace assumption is
      explicit: whatever commits after that state has a later commit time than the
      point's watermark. */
  ghost predicate CachedRun(digest: Digest, states: seq<State>, steps: seq<Step>, queries: seq<nat>) {
    && IsRun(digest, states, steps)
    && |queries| == |steps|
    && (forall i :: 0 <= i < |steps| && steps[i].DoCachePoint? ==>
          && queries[i] <= i
          && PointFrom(states, queries[i], steps[i].account, steps[i].asset, steps[i].point))
    && (forall i, j :: 0 <= i < |steps| && steps[i].DoCachePoint? && queries[i] <= j < |steps| && steps[j].DoCommit? ==>
          steps[j].ts > steps[i].point.watermark)
  }

  ghost predicate SameTransfers(s: State, t: State) {
    t.immutable == s.immutable && t.transfers == s.transfers && t.participation == s.participation
  }

  /** What one step can do to the transfers and to the cache points. */
  lemma StepShape(digest: Digest, states: seq<State>, steps: seq<Step>, i: nat)
    requires IsRun(digest, states, steps) && i < |steps|
    ensures steps[i].DoCommit? ==>
      var req := RequestOf(digest, steps[i].envelope, steps[i].loaded, steps[i].ts);
      states[i + 1] == states[i] || (Ready(states[i], req) && states[i + 1] == Applied(states[i], req))
    ensures !steps[i].DoCommit? ==> SameTransfers(states[i], states[i + 1])
    ensures !steps[i].DoCachePoint? ==> states[i + 1].projections == states[i].projections
    ensures steps[i].DoCachePoint? ==>
      states[i + 1] == AppendProjection(states[i], steps[i].account, steps[i].asset, steps[i].point)
  {
    hide Inv, Grows, LoadedFrom, Acceptable;
    var past := states[..i + 1];
    assert past[|past| - 1] == states[i];
    RunHistory(digest, states, steps, i);
    assert StepTo(digest, past, steps[i], states[i + 1]);
    StepShapeFrom(digest, past, steps[i], states[i + 1]);
  }

  lemma StepShapeFrom(digest: Digest, past: seq<State>, step: Step, s': State)
    requires past != [] && StepTo(digest, past, step, s') && History(past)
    ensures var s := past[|past| - 1];
      && (step.DoCommit? ==>
            var req := RequestOf(digest, step.envelope, step.loaded, step.ts);
            s' == s || (Ready(s, req) && s' == Applied(s, req)))
      && (!step.DoCommit? ==> SameTransfers(s, s'))
      && (!step.DoCachePoint? ==> s'.projections == s.projections)
      && (step.DoCachePoint? ==> s' == AppendProjection(s, step.account, step.asset, step.point))
  {
    hide Inv, Grows, LoadedFrom, Acceptable, History, Ready, TablesOk, Commits;
    var s := past[|past| - 1];
    if step.DoCommit? {
      CommitStepReady(digest, past, step.envelope, step.loaded, step.ts, s');
    } else if step.DoReserve? || step.DoRelease? {
      LatestTables(past);
      HoldShape(s, step.ids, step.rid);
    } else if step.DoTransition? {
      TransitionShape(s, Mutated(step.mutation, step.base),
        LedgerEvent(step.ts, EventFor(step.mutation, step.base.id, step.base.version + 1)));
    }
  }

  lemma HoldShape(s: State, ids: seq<PostingId>, rid: ReservationId)
    requires TablesOk(s)
    ensures SameTransfers(s, Reserve(s, ids, rid).0) && Reserve(s, ids, rid).0.projections == s.projections
    ensures SameTransfers(s, Release(s, ids, rid).0) && Release(s, ids, rid).0.projections == s.projections
  {
    ReserveSame(s, ids, rid);
    ReleaseSame(s, ids, rid);
  }

  lemma TransitionShape(s: State, next: Account, event: LedgerEvent)
    ensures var t := CommitTransition(s, next, event).0; SameTransfers(s, t) && t.projections == s.projections
  {
    hide Append;
    if Head(s, next.id).Some? {
      var current := Head(s, next.id).value;
      if current.IsClosed() {
      } else if current.version >= next.version {
        assert CommitTransition(s, next, event).0 == AppendEvent(s, event);
      } else if next.version == current.version + 1 {
        var grown := s.(accounts := s.accounts[next.id := s.accounts[next.id] + [next]]);
        assert CommitTransition(s, next, event).0 == AppendEvent(grown, event);
      }
    }
  }

  lemma LatestTables(past: seq<State>)
    requires History(past)
    ensures TablesOk(past[|past| - 1])
  {
    LatestInv(past);
  }

  lemma LateCommitIndexed(s: State, req: CommitRequest, a: AccountId, w: i64, t: EnvelopeId)
    requires IndexOk(s) && req.transferId !in s.transfers && w < req.record.createdAt
    ensures Indexed(Applied(s, req), a, None, Some(w + 1), t) <==> Indexed(s, a, None, Some(w + 1), t)
  {
  }

  /** A commit later than the watermark leaves the window below it alone. */
  lemma LateCommitWindow(s: State, req: CommitRequest, a: AccountId, asset: AssetId, w: i64)
    requires ProvenanceOk(s) && SpentOk(s) && IndexOk(s) && Ready(s, req)
    requires w < req.record.createdAt
    ensures WindowSum(Applied(s, req), a, asset, None, Some(w + 1)) == WindowSum(s, a, asset, None, Some(w + 1))
  {
    hide ProvenanceOk, SpentOk, Indexed;
    var s' := Applied(s, req);
    var before, after := WindowDeltas(s, a, asset, None, Some(w + 1)), WindowDeltas(s', a, asset, None, Some(w + 1));
    forall t ensures t in before <==> t in after {
      LateCommitIndexed(s, req, a, w, t);
      assert Indexed(s, a, None, Some(w + 1), t) ==> t in s.transfers by { IndexedStored(s, a, None, Some(w + 1), t); }
      assert Indexed(s', a, None, Some(w + 1), t) ==> t in s'.transfers by { IndexedStored(s', a, None, Some(w + 1), t); }
    }
    forall t | t in before ensures after[t] == before[t] {
      AppliedDelta(s, req, OfHolder(a, asset), t);
    }
    assert before == after;
  }

  lemma IndexedStored(s: State, a: AccountId, from: Option<i64>, to: Option<i64>, t: EnvelopeId)
    ensures Indexed(s, a, from, to, t) ==> t in s.transfers
  {
  }

  lemma SameWindow(s: State, t: State, a: AccountId, asset: AssetId, from: Option<i64>, to: Option<i64>)
    requires SameTransfers(s, t)
    ensures WindowSum(t, a, asset, from, to) == WindowSum(s, a, asset, from, to)
  {
    assert WindowDeltas(t, a, asset, from, to) == WindowDeltas(s, a, asset, from, to);
  }

  /** The window below a watermark is settled once every later commit is above it. */
  lemma {:induction false} WindowSettled(
    digest: Digest, states: seq<State>, steps: seq<Step>, q: nat, n: nat, a: AccountId, asset: AssetId, w: i64)
    requires IsRun(digest, states, steps) && q <= n < |states| && w < I64_MAX
    requires forall j :: q <= j < n && steps[j].DoCommit? ==> steps[j].ts > w
    ensures WindowSum(states[n], a, asset, None, Some(w + 1)) == WindowSum(states[q], a, asset, None, Some(w + 1))
  {
    hide WindowSum, StepTo;
    if q < n {
      WindowSettled(digest, states, steps, q, n - 1, a, asset, w);
      WindowSettledStep(digest, states, steps, n - 1, a, asset, w);
    }
  }

  lemma WindowSettledStep(
    digest: Digest, states: seq<State>, steps: seq<Step>, n: nat, a: AccountId, asset: AssetId, w: i64)
    requires IsRun(digest, states, steps) && n < |steps| && w < I64_MAX
    requires steps[n].DoCommit? ==> steps[n].ts > w
    ensures WindowSum(states[n + 1], a, asset, None, Some(w + 1)) == WindowSum(states[n], a, asset, None, Some(w + 1))
  {
    hide WindowSum, StepTo, Ready, Inv, Grows, SameTransfers;
    StepShape(digest, states, steps, n);
    if steps[n].DoCommit? {
      RunSafe(digest, states, steps, n, n);
      CommitBelow(digest, states[n], steps[n], states[n + 1], a, asset, w);
    } else {
      SameWindow(states[n], states[n + 1], a, asset, None, Some(w + 1));
    }
  }

  lemma CommitBelow(digest: Digest, s: State, step: Step, s': State, a: AccountId, asset: AssetId, w: i64)
    requires Inv(s) && step.DoCommit? && step.ts > w
    requires var req := RequestOf(digest, step.envelope, step.loaded, step.ts);
      s' == s || (Ready(s, req) && s' == Applied(s, req))
    ensures WindowSum(s', a, asset, None, Some(w + 1)) == WindowSum(s, a, asset, None, Some(w + 1))
  {
    hide Ready, WindowSum;
    if s' != s {
      LateCommitWindow(s, RequestOf(digest, step.envelope, step.loaded, step.ts), a, asset, w);
    }
  }

  /** Every cache point of a state was appended by some earlier step. */
  lemma {:induction false} PointOrigin(
    digest: Digest, states: seq<State>, steps: seq<Step>, n: nat, a: AccountId, asset: AssetId, p: BalanceProjection)
    returns (i: nat)
    requires IsRun(digest, states, steps) && n < |states| && p in PointsOf(states[n], a, asset)
    ensures i < n && steps[i] == DoCachePoint(a, asset, p)
  {
    hide StepTo, Ready, RequestOf;
    assert PointsOf(states[0], a, asset) == [];
    StepShape(digest, states, steps, n - 1);
    if p in PointsOf(states[n - 1], a, asset) {
      i := PointOrigin(digest, states, steps, n - 1, a, asset, p);
    } else {
      i := n - 1;
    }
  }

  /** A point appended by step `i` is right in every state from its query on. */
  lemma {:induction false} PointRight(
    digest: Digest, states: seq<State>, steps: seq<Step>, queries: seq<nat>, i: nat, n: nat)
    requires CachedRun(digest, states, steps, queries) && i < |steps| && steps[i].DoCachePoint?
    requires queries[i] <= n < |states|
    ensures PointOk(states[n], steps[i].account, steps[i].asset, steps[i].point)
    decreases i
  {
    hide StepTo, WindowSum;
    var a, asset, p, q := steps[i].account, steps[i].asset, steps[i].point, queries[i];
    assert PointFrom(states, q, a, asset, p);
    if p.balance != WindowSum(states[q], a, asset, None, Some(p.watermark + 1)) {
      var q0, p0 :| 0 <= q0 <= q && p0 in PointsOf(states[q0], a, asset) && p0.watermark < p.watermark
        && p.balance == p0.balance + WindowSum(states[q], a, asset, Some(p0.watermark + 1), Some(p.watermark + 1));
      var i0 := PointOrigin(digest, states, steps, q0, a, asset, p0);
      PointRight(digest, states, steps, queries, i0, q);
      WindowSplit(states[q], a, asset, None, p0.watermark + 1, Some(p.watermark + 1));
    }
    WindowSettled(digest, states, steps, q, n, a, asset, p.watermark);
  }

  /** In every state of every run every cache point is correct. */
  lemma PointsAlwaysRight(digest: Digest, states: seq<State>, steps: seq<Step>, queries: seq<nat>, n: nat)
    requires CachedRun(digest, states, steps, queries) && n < |states|
    ensures PointsOk(states[n])
  {
    forall a: AccountId, asset: AssetId, p | p in PointsOf(states[n], a, asset) ensures PointOk(states[n], a, asset, p) {
      var i := PointOrigin(digest, states, steps, n, a, asset, p);
      PointRight(digest, states, steps, queries, i, n);
    }
  }

  /** Whatever cache point a reader picked, in whatever earlier state, adding the tail
      of the state it folds gives that state's authoritative balance. */
  lemma CachedReadIsBalance(
    digest: Digest, states: seq<State>, steps: seq<Step>, queries: seq<nat>,
    q: nat, n: nat, a: AccountId, asset: AssetId, p: BalanceProjection)
    requires CachedRun(digest, states, steps, queries) && q <= n < |states|
    requires p in PointsOf(states[q], a, asset)
    ensures p.watermark < I64_MAX
    ensures p.balance + WindowSum(states[n], a, asset, Some(p.watermark + 1), None) == LiveSum(states[n], OfHolder(a, asset))
  {
    hide WindowSum;
    var i := PointOrigin(digest, states, steps, q, a, asset, p);
    PointRight(digest, states, steps, queries, i, n);
    RunSafe(digest, states, steps, n, n);
    RightPlusTail(states[n], a, asset, p);
  }
}

/** Sums of posting values over a slice of the ledger: one asset across every
    account, or one asset held by one account. */
module Amounts {
  import opened Domain
  import opened Totals

  datatype Slice = OfAsset(asset: AssetId) | OfHolder(owner: AccountId, asset: AssetId)

  predicate Covers(sl: Slice, owner: AccountId, asset: AssetId) {
    match sl
    case OfAsset(a) => asset == a
    case OfHolder(o, a) => owner == o && asset == a
  }

  function Weight(sl: Slice, p: Posting): int {
    if Covers(sl, p.owner, p.asset) then p.value else 0
  }

  ghost function Weights(sl: Slice, rows: map<PostingId, Posting>): map<PostingId, int> {
    map id | id in rows :: Weight(sl, rows[id])
  }

  /** The order-free sum of a table of postings over a slice. */
  ghost function SumRows(sl: Slice, rows: map<PostingId, Posting>): int {
    Total(Weights(sl, rows))
  }

  function SumPostings(sl: Slice, ps: seq<Posting>): int {
    if ps == [] then 0
    else SumPostings(sl, ps[..|ps| - 1]) + Weight(sl, ps[|ps| - 1])
  }

  function SumNew(sl: Slice, ps: seq<NewPosting>): int {
    if ps == [] then 0
    else
      var p := ps[|ps| - 1];
      SumNew(sl, ps[..|ps| - 1]) + (if Covers(sl, p.owner, p.asset) then p.value else 0)
  }

  /** The sum of the rows a list of ids names; an unknown id counts nothing. */
  function SumIds(sl: Slice, rows: map<PostingId, Posting>, ids: seq<PostingId>): int {
    if ids == [] then 0
    else
      var id := ids[|ids| - 1];
      SumIds(sl, rows, ids[..|ids| - 1]) + (if id in rows then Weight(sl, rows[id]) else 0)
  }

  lemma SumRowsInsert(sl: Slice, rows: map<PostingId, Posting>, id: PostingId, p: Posting)
    requires id !in rows
    ensures SumRows(sl, rows[id := p]) == SumRows(sl, rows) + Weight(sl, p)
  {
    TotalInsert(Weights(sl, rows), id, Weight(sl, p));
    assert Weights(sl, rows[id := p]) == Weights(sl, rows)[id := Weight(sl, p)];
  }

  lemma SumRowsRemove(sl: Slice, rows: map<PostingId, Posting>, id: PostingId)
    requires id in rows
    ensures SumRows(sl, rows - {id}) == SumRows(sl, rows) - Weight(sl, rows[id])
  {
    TotalRemove(Weights(sl, rows), id);
    assert Weights(sl, rows - {id}) == Weights(sl, rows) - {id};
  }

  function IdSet(ids: seq<PostingId>): set<PostingId> { set id | id in ids }

  /** Spending distinct live rows lowers the sum by exactly what they hold. */
  lemma {:induction false} SumRowsSpend(sl: Slice, rows: map<PostingId, Posting>, ids: seq<PostingId>)
    requires Distinct(ids)
    requires forall id :: id in ids ==> id in rows
    ensures SumRows(sl, rows - IdSet(ids)) == SumRows(sl, rows) - SumIds(sl, rows, ids)
  {
    if ids == [] {
      assert rows - IdSet(ids) == rows;
    } else {
      var n := |ids| - 1;
      var front := ids[..n];
      SumRowsSpend(sl, rows, front);
      assert ids[n] !in front;
      SumRowsRemove(sl, rows - IdSet(front), ids[n]);
      assert IdSet(ids) == IdSet(front) + {ids[n]} by { assert ids == front + [ids[n]]; }
      assert rows - IdSet(front) - {ids[n]} == rows - IdSet(ids);
    }
  }

  /** Rows written one after another, keyed by their own id. */
  function Put(rows: map<PostingId, Posting>, ps: seq<Posting>): map<PostingId, Posting> {
    if ps == [] then rows
    else Put(rows, ps[..|ps| - 1])[ps[|ps| - 1].id := ps[|ps| - 1]]
  }

  ghost predicate FreshIds(rows: map<PostingId, Posting>, ps: seq<Posting>) {
    && (forall i, j :: 0 <= i < j < |ps| ==> ps[i].id != ps[j].id)
    && (forall i :: 0 <= i < |ps| ==> ps[i].id !in rows)
  }

  function IdsOf(ps: seq<Posting>): set<PostingId> {
    set i | 0 <= i < |ps| :: ps[i].id
  }

  /** What a table holds after new postings with fresh ids are written to it. */
  lemma {:induction false} PutFresh(rows: map<PostingId, Posting>, ps: seq<Posting>)
    requires FreshIds(rows, ps)
    ensures Put(rows, ps).Keys == rows.Keys + IdsOf(ps)
    ensures forall id :: id in rows ==> Put(rows, ps)[id] == rows[id]
    ensures forall i :: 0 <= i < |ps| ==> Put(rows, ps)[ps[i].id] == ps[i]
  {
    if ps != [] {
      var n := |ps| - 1;
      var front := ps[..n];
      assert FreshIds(rows, front);
      PutFresh(rows, front);
      IdsOfSnoc(ps);
      var before, after := Put(rows, front), Put(rows, ps);
      assert after == before[ps[n].id := ps[n]];
      hide Put, IdsOf, FreshIds;
      assert forall i :: 0 <= i < n ==> ps[i] == front[i];
    }
  }

  lemma IdsOfSnoc(ps: seq<Posting>)
    requires ps != []
    ensures IdsOf(ps) == IdsOf(ps[..|ps| - 1]) + {ps[|ps| - 1].id}
  {
    var n := |ps| - 1;
    forall i | 0 <= i < n ensures ps[i].id in IdsOf(ps[..n]) {
      assert ps[..n][i] == ps[i];
    }
    forall i | 0 <= i < n ensures ps[..n][i].id in IdsOf(ps) {
      assert ps[..n][i] == ps[i];
    }
  }

  /** Activating postings with fresh ids raises the sum by exactly what they hold. */
  lemma {:induction false} PutSum(sl: Slice, rows: map<PostingId, Posting>, ps: seq<Posting>)
    requires FreshIds(rows, ps)
    ensures SumRows(sl, Put(rows, ps)) == SumRows(sl, rows) + SumPostings(sl, ps)
  {
    if ps != [] {
      var n := |ps| - 1;
      var front := ps[..n];
      assert FreshIds(rows, front);
      PutSum(sl, rows, front);
      PutFresh(rows, front);
      SumRowsInsert(sl, Put(rows, front), ps[n].id, ps[n]);
    }
  }

  /** Two tables that agree on a list of ids give it the same sum. */
  lemma {:induction false} SumIdsAgree(sl: Slice, a: map<PostingId, Posting>, b: map<PostingId, Posting>, ids: seq<PostingId>)
    requires forall id :: id in ids ==> id in a && id in b && a[id] == b[id]
    ensures SumIds(sl, a, ids) == SumIds(sl, b, ids)
  {
    if ids != [] {
      SumIdsAgree(sl, a, b, ids[..|ids| - 1]);
    }
  }

  /** A list of ids none of whose rows lie in the slice sums to zero. */
  lemma {:induction false} SumIdsOutside(sl: Slice, rows: map<PostingId, Posting>, ids: seq<PostingId>)
    requires forall id :: id in ids && id in rows ==> !Covers(sl, rows[id].owner, rows[id].asset)
    ensures SumIds(sl, rows, ids) == 0
  {
    if ids != [] {
      SumIdsOutside(sl, rows, ids[..|ids| - 1]);
    }
  }

  lemma {:induction false} SumNewOutside(sl: Slice, ps: seq<NewPosting>)
    requires forall i :: 0 <= i < |ps| ==> !Covers(sl, ps[i].owner, ps[i].asset)
    ensures SumNew(sl, ps) == 0
  {
    if ps != [] {
      SumNewOutside(sl, ps[..|ps| - 1]);
    }
  }

  lemma {:induction false} SumNewAppend(sl: Slice, a: seq<NewPosting>, b: seq<NewPosting>)
    ensures SumNew(sl, a + b) == SumNew(sl, a) + SumNew(sl, b)
  {
    if b == [] {
      assert a + b == a;
    } else {
      var n := |b| - 1;
      assert (a + b)[..|a + b| - 1] == a + b[..n];
      SumNewAppend(sl, a, b[..n]);
    }
  }

  lemma {:induction false} SumIdsAppend(sl: Slice, rows: map<PostingId, Posting>, a: seq<PostingId>, b: seq<PostingId>)
    ensures SumIds(sl, rows, a + b) == SumIds(sl, rows, a) + SumIds(sl, rows, b)
  {
    if b == [] {
      assert a + b == a;
    } else {
      var n := |b| - 1;
      assert (a + b)[..|a + b| - 1] == a + b[..n];
      SumIdsAppend(sl, rows, a, b[..n]);
    }
  }

  /** A table whose rows in the slice are all non-negative has a non-negative sum
      that dominates the sum of any part of it. */
  lemma SumRowsPart(sl: Slice, rows: map<PostingId, Posting>, part: map<PostingId, Posting>)
    requires forall id :: id in part ==> id in rows && part[id] == rows[id]
    requires forall id :: id in rows ==> 0 <= Weight(sl, rows[id])
    ensures 0 <= SumRows(sl, part) <= SumRows(sl, rows)
  {
    TotalMonotone(Weights(sl, rows), Weights(sl, part));
  }

  ghost predicate PartOf(part: map<PostingId, Posting>, rows: map<PostingId, Posting>) {
    forall id :: id in part ==> id in rows && part[id] == rows[id]
  }

  /** Added up in any order, no running sum leaves the representable range. */
  ghost predicate Summable(sl: Slice, rows: map<PostingId, Posting>) {
    forall part :: PartOf(part, rows) ==> Fits(SumRows(sl, part))
  }

  lemma NonNegativeSummable(sl: Slice, rows: map<PostingId, Posting>)
    requires (forall id :: id in rows ==> 0 <= Weight(sl, rows[id])) && SumRows(sl, rows) <= CENT_MAX
    ensures Summable(sl, rows)
  {
    forall part | PartOf(part, rows) ensures Fits(SumRows(sl, part)) {
      SumRowsPart(sl, rows, part);
    }
  }

  /** Added up in the order given, likewise. */
  ghost predicate RunningSumsFit(sl: Slice, ps: seq<Posting>) {
    forall k :: 0 <= k <= |ps| ==> Fits(SumPostings(sl, ps[..k]))
  }

  lemma {:induction false} SumPostingsGrows(sl: Slice, ps: seq<Posting>, k: nat)
    requires k <= |ps| && forall i :: 0 <= i < |ps| ==> 0 <= Weight(sl, ps[i])
    ensures 0 <= SumPostings(sl, ps[..k]) <= SumPostings(sl, ps)
  {
    if k == |ps| {
      assert ps[..k] == ps;
      if k > 0 {
        SumPostingsGrows(sl, ps[..k - 1], k - 1);
        assert ps[..k - 1][..k - 1] == ps[..k - 1];
      }
    } else {
      var front := ps[..|ps| - 1];
      SumPostingsGrows(sl, front, k);
      assert front[..k] == ps[..k];
    }
  }

  lemma NonNegativeRuns(sl: Slice, ps: seq<Posting>)
    requires (forall i :: 0 <= i < |ps| ==> 0 <= Weight(sl, ps[i])) && SumPostings(sl, ps) <= CENT_MAX
    ensures RunningSumsFit(sl, ps)
  {
    forall k | 0 <= k <= |ps| ensures Fits(SumPostings(sl, ps[..k])) {
      SumPostingsGrows(sl, ps, k);
    }
  }
}

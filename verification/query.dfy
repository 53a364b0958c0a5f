/** Time windows and page cuts over transfer records, shared by every store
    (crates/kuatia-storage/src/query.rs). */
module Query {
  import opened Wrappers
  import opened Domain

  const U32_MAX: nat := 0xFFFF_FFFF

  datatype TransferQuery = TransferQuery(
    from: Option<i64>, to: Option<i64>, book: Option<BookId>, offset: Option<nat>, limit: Option<nat>)

  predicate InWindow(ts: i64, from: Option<i64>, to: Option<i64>) {
    (from.Some? ==> from.value <= ts) && (to.Some? ==> ts < to.value)
  }

  predicate Matches(r: EnvelopeRecord, q: TransferQuery) {
    InWindow(r.createdAt, q.from, q.to) && (q.book.Some? ==> r.envelope.book == q.book.value)
  }

  /** The matching records. */
  function FilterTransfers(records: seq<EnvelopeRecord>, q: TransferQuery): (r: seq<EnvelopeRecord>)
    ensures forall x :: x in r <==> x in records && Matches(x, q)
    ensures |r| <= |records|
  {
    if records == [] then []
    else
      var front, last := FilterTransfers(records[..|records| - 1], q), records[|records| - 1];
      assert records == records[..|records| - 1] + [last];
      if Matches(last, q) then front + [last] else front
  }

  /** A record is left out exactly for a bound it does not meet: it is older than `from`, not
      older than `to`, or of another book. */
  lemma LeftOut(records: seq<EnvelopeRecord>, q: TransferQuery, x: EnvelopeRecord)
    requires x in records
    ensures x !in FilterTransfers(records, q) <==>
      || (q.from.Some? && x.createdAt < q.from.value)
      || (q.to.Some? && q.to.value <= x.createdAt)
      || (q.book.Some? && q.book.value != x.envelope.book)
  {
  }

  lemma Assoc<T>(x: seq<T>, y: seq<T>, z: seq<T>)
    ensures (x + y) + z == x + (y + z)
  {
  }

  /** In their order, each as often as it occurs: filtering two stretches apart is filtering
      both together. */
  lemma {:induction false} FilterAppend(a: seq<EnvelopeRecord>, b: seq<EnvelopeRecord>, q: TransferQuery)
    ensures FilterTransfers(a + b, q) == FilterTransfers(a, q) + FilterTransfers(b, q)
  {
    if b == [] {
      assert a + b == a;
    } else {
      FilterAppend(a, b[..|b| - 1], q);
      assert (a + b)[..|a + b| - 1] == a + b[..|b| - 1];
      FilterSplit(a + b, q);
      FilterSplit(b, q);
      hide FilterTransfers, Matches;
      Assoc(FilterTransfers(a, q), FilterTransfers(b[..|b| - 1], q), Kept(b[|b| - 1], q));
    }
  }

  function Kept(x: EnvelopeRecord, q: TransferQuery): seq<EnvelopeRecord> { if Matches(x, q) then [x] else [] }

  lemma FilterSplit(records: seq<EnvelopeRecord>, q: TransferQuery)
    requires records != []
    ensures FilterTransfers(records, q) == FilterTransfers(records[..|records| - 1], q) + Kept(records[|records| - 1], q)
  {
  }

  /** So any order between the records carries over. */
  lemma {:induction false} FilterKeepsOrder(records: seq<EnvelopeRecord>, q: TransferQuery, before: (EnvelopeRecord, EnvelopeRecord) -> bool)
    requires forall i, j :: 0 <= i < j < |records| ==> before(records[i], records[j])
    ensures var r := FilterTransfers(records, q); forall i, j :: 0 <= i < j < |r| ==> before(r[i], r[j])
  {
    if records != [] {
      var n := |records| - 1;
      var front := FilterTransfers(records[..n], q);
      FilterKeepsOrder(records[..n], q, before);
      FilterSplit(records, q);
      hide FilterTransfers, Matches;
      forall i | 0 <= i < |front| ensures before(front[i], records[n]) {
        assert front[i] in front;
        var k :| 0 <= k < n && records[..n][k] == front[i];
      }
    }
  }

  lemma FilterDistinct(records: seq<EnvelopeRecord>, q: TransferQuery)
    requires Distinct(records)
    ensures Distinct(FilterTransfers(records, q))
  {
    FilterKeepsOrder(records, q, (x: EnvelopeRecord, y: EnvelopeRecord) => x != y);
  }

  function Window(offset: Option<nat>, limit: Option<nat>): (nat, nat) {
    (if offset.Some? then offset.value else 0, if limit.Some? then limit.value else U32_MAX)
  }

  datatype Page<T> = Page(items: seq<T>, total: nat)

  /** Skip, then take; an absent bound means from the start and unbounded.  The total is
      what there is before the cut. */
  function Paginate<T>(items: seq<T>, offset: Option<nat>, limit: Option<nat>): (page: Page<T>)
    ensures var (o, l) := Window(offset, limit); var n := |page.items|;
      && n <= l && (forall i :: 0 <= i < n ==> o + i < |items| && page.items[i] == items[o + i])
      && (n < l ==> n == if o < |items| then |items| - o else 0)
    ensures offset.None? && limit.None? && |items| <= U32_MAX ==> page.items == items
    ensures page.total == |items|
  {
    var (o, l) := Window(offset, limit);
    var rest := if o <= |items| then items[o..] else [];
    Page(if l <= |rest| then rest[..l] else rest, |items|)
  }

  /** Reading on from where a page ended loses nothing and repeats nothing. */
  lemma NextPage<T>(items: seq<T>, offset: nat, limit: nat, next: nat)
    ensures Paginate(items, Some(offset), Some(limit)).items + Paginate(items, Some(offset + limit), Some(next)).items
      == Paginate(items, Some(offset), Some(limit + next)).items
  {
    var o, m := if offset <= |items| then offset else |items|, if offset + limit <= |items| then offset + limit else |items|;
    var rest := items[o..];
    assert rest[m - o..] == items[m..];
    assert rest == rest[..m - o] + items[m..];
  }
}

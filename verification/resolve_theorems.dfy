/** What resolution promises: it is exact per holder and per asset, it consumes no posting
    twice, it consumes as few as any cover could, and nothing overflows past the total. */
module ResolutionTheorems {
  import opened Wrappers
  import opened Domain
  import opened Totals
  import opened Amounts
  import opened Resolution

  // ---- The sort ----

  ghost predicate Descending(ps: seq<Posting>) {
    forall i, j :: 0 <= i < j < |ps| ==> ps[i].value >= ps[j].value
  }

  lemma {:induction false} InsertMultiset(ps: seq<Posting>, p: Posting)
    ensures multiset(InsertByValue(ps, p)) == multiset(ps) + multiset{p}
  {
    if ps != [] && ps[|ps| - 1].value < p.value {
      InsertMultiset(ps[..|ps| - 1], p);
      assert ps == ps[..|ps| - 1] + [ps[|ps| - 1]];
    }
  }

  lemma {:induction false} InsertDescending(ps: seq<Posting>, p: Posting)
    requires Descending(ps)
    ensures Descending(InsertByValue(ps, p))
    ensures ps != [] && ps[|ps| - 1].value < p.value ==> InsertByValue(ps, p)[|ps|] == ps[|ps| - 1]
    ensures !(ps != [] && ps[|ps| - 1].value < p.value) ==> InsertByValue(ps, p)[|ps|] == p
  {
    if ps != [] && ps[|ps| - 1].value < p.value {
      InsertDescending(ps[..|ps| - 1], p);
    }
  }

  lemma NoneDescending()
    ensures Descending([])
  {
  }

  lemma {:induction false} LargestFirstSorts(ps: seq<Posting>)
    ensures Descending(LargestFirst(ps)) && multiset(LargestFirst(ps)) == multiset(ps)
  {
    hide InsertByValue, Descending;
    if |ps| == 0 {
      NoneDescending();
    } else {
      LargestFirstSorts(ps[..|ps| - 1]);
      InsertMultiset(LargestFirst(ps[..|ps| - 1]), ps[|ps| - 1]);
      InsertDescending(LargestFirst(ps[..|ps| - 1]), ps[|ps| - 1]);
      assert ps == ps[..|ps| - 1] + [ps[|ps| - 1]];
    }
  }

  function Valued(ps: seq<Posting>, v: int): seq<Posting> {
    if ps == [] then [] else Valued(ps[..|ps| - 1], v) + if ps[|ps| - 1].value == v then [ps[|ps| - 1]] else []
  }

  lemma ValuedPush(ps: seq<Posting>, p: Posting, v: int)
    ensures Valued(ps + [p], v) == Valued(ps, v) + if p.value == v then [p] else []
  {
    assert (ps + [p])[..|ps|] == ps;
  }

  lemma {:induction false} InsertStable(ps: seq<Posting>, p: Posting, v: int)
    ensures Valued(InsertByValue(ps, p), v) == Valued(ps, v) + if p.value == v then [p] else []
  {
    if ps == [] || ps[|ps| - 1].value >= p.value {
      ValuedPush(ps, p, v);
    } else {
      InsertStable(ps[..|ps| - 1], p, v);
      ValuedPush(InsertByValue(ps[..|ps| - 1], p), ps[|ps| - 1], v);
    }
  }

  /** Postings of equal value keep the order they were offered in. */
  lemma {:induction false} TiesKeepOrder(ps: seq<Posting>, v: int)
    ensures Valued(LargestFirst(ps), v) == Valued(ps, v)
  {
    if ps != [] {
      TiesKeepOrder(ps[..|ps| - 1], v);
      InsertStable(LargestFirst(ps[..|ps| - 1]), ps[|ps| - 1], v);
    }
  }


  /** The sum depends only on which postings there are. */
  lemma {:induction false} SumInsert(ps: seq<Posting>, p: Posting)
    ensures SumValues(InsertByValue(ps, p)) == SumValues(ps) + p.value
  {
    if ps == [] || ps[|ps| - 1].value >= p.value {
      assert (ps + [p])[..|ps|] == ps;
    } else {
      var longer := InsertByValue(ps[..|ps| - 1], p);
      SumInsert(ps[..|ps| - 1], p);
      assert (longer + [ps[|ps| - 1]])[..|longer|] == longer;
    }
  }

  lemma {:induction false} SumSorted(ps: seq<Posting>)
    ensures SumValues(LargestFirst(ps)) == SumValues(ps)
  {
    if ps != [] {
      SumSorted(ps[..|ps| - 1]);
      SumInsert(LargestFirst(ps[..|ps| - 1]), ps[|ps| - 1]);
    }
  }

  lemma SortedMembers(ps: seq<Posting>)
    ensures forall p :: p in LargestFirst(ps) <==> p in ps
  {
    LargestFirstSorts(ps);
    forall p ensures p in LargestFirst(ps) <==> p in ps {
      assert p in ps <==> p in multiset(ps);
      assert p in LargestFirst(ps) <==> p in multiset(LargestFirst(ps));
    }
  }

  // ---- Selection stops as soon as the amount is reached ----

  /** Every proper prefix of what is taken falls short; what is taken reaches the amount
      whenever all of it would. */
  lemma {:induction false} TakenTight(cs: seq<Posting>, amount: int, sum: int)
    ensures var k := Taken(cs, amount, sum);
      (forall j :: 1 <= j < k ==> sum + SumValues(cs[..j]) < amount) &&
      (sum + SumValues(cs) >= amount ==> sum + SumValues(cs[..k]) >= amount || cs == [])
    ensures cs != [] ==> Taken(cs, amount, sum) >= 1
  {
    if cs != [] {
      SumOne(cs[0]);
      assert cs[..1] == [cs[0]];
      if sum + cs[0].value < amount {
        var rest, k := cs[1..], Taken(cs, amount, sum);
        TakenTight(rest, amount, sum + cs[0].value);
        forall j | 1 <= j <= |cs| ensures SumValues(cs[..j]) == cs[0].value + SumValues(rest[..j - 1]) {
          assert cs[..j] == [cs[0]] + rest[..j - 1];
          SumAppend([cs[0]], rest[..j - 1]);
        }
        assert cs[..|cs|] == cs && rest[..|rest|] == rest;
        forall j | 1 <= j < k ensures sum + SumValues(cs[..j]) < amount {
          assert rest[..0] == [];
        }
      }
    }
  }

  lemma SumOne(p: Posting)
    ensures SumValues([p]) == p.value
  {
    assert [p][..0] == [];
  }

  // ---- Optimality ----

  ghost function ValuesOf(s: set<Posting>): map<Posting, int> { map p | p in s :: p.value }

  ghost function SumSet(s: set<Posting>): int { Total(ValuesOf(s)) }

  lemma SumSetRemove(s: set<Posting>, p: Posting)
    requires p in s
    ensures SumSet(s) == SumSet(s - {p}) + p.value
  {
    TotalRemove(ValuesOf(s), p);
    assert ValuesOf(s) - {p} == ValuesOf(s - {p});
  }

  lemma PrefixPush(cs: seq<Posting>, k: nat)
    requires 1 <= k <= |cs|
    ensures SumValues(cs[..k]) == SumValues(cs[..k - 1]) + cs[k - 1].value
  {
    assert cs[..k][..k - 1] == cs[..k - 1];
  }

  ghost predicate Within(s: set<Posting>, ps: seq<Posting>) { forall p :: p in s ==> p in ps }

  lemma WithinFront(s: set<Posting>, ps: seq<Posting>)
    requires ps != [] && Within(s, ps)
    ensures Within(s - {ps[|ps| - 1]}, ps[..|ps| - 1])
  {
  }

  ghost predicate AllPositive(ps: seq<Posting>) { forall i :: 0 <= i < |ps| ==> ps[i].value > 0 }

  lemma EmptyDominated(cs: seq<Posting>)
    requires AllPositive(cs)
    ensures SumSet({}) == 0 <= SumValues(cs)
  {
    assert ValuesOf({}) == map[];
    SumNonNegative(cs);
  }

  /** No `k` of some positive postings are worth more than the `k` largest. */
  lemma {:induction false} LargestDominate(cs: seq<Posting>, s: set<Posting>, k: nat)
    requires Descending(cs) && AllPositive(cs) && Within(s, cs) && |s| <= k <= |cs|
    ensures SumSet(s) <= SumValues(cs[..k])
  {
    hide SumSet, SumValues, Within;
    if s == {} {
      EmptyDominated(cs[..k]);
    } else {
      var front, last := cs[..|cs| - 1], cs[|cs| - 1];
      assert front[..k - 1] == cs[..k - 1];
      PrefixPush(cs, k);
      WithinFront(s, cs);
      if last in s {
        SumSetRemove(s, last);
        LargestDominate(front, s - {last}, k - 1);
      } else {
        assert s - {last} == s;
        SetWithin(front, s);
        if k < |cs| {
          LargestDominate(front, s, k);
          assert front[..k] == cs[..k];
        } else {
          LargestDominate(front, s, k - 1);
        }
      }
    }
  }

  lemma {:induction false} SetWithin(ps: seq<Posting>, s: set<Posting>)
    requires Within(s, ps)
    ensures |s| <= |ps|
  {
    if ps == [] {
      assert s == {};
    } else {
      SetWithin(ps[..|ps| - 1], s - {ps[|ps| - 1]});
    }
  }

  /** Leaving out the worthless postings loses nothing. */
  lemma {:induction false} DropNonPositive(s: set<Posting>) returns (t: set<Posting>)
    ensures t <= s && |t| <= |s| && SumSet(s) <= SumSet(t)
    ensures forall p :: p in t <==> p in s && p.value > 0
    decreases |s|
  {
    if p :| p in s && p.value <= 0 {
      SumSetRemove(s, p);
      t := DropNonPositive(s - {p});
    } else {
      t := s;
    }
  }

  function Candidates(avail: seq<Posting>): seq<Posting> { LargestFirst(Positives(avail)) }

  lemma CandidatesSorted(avail: seq<Posting>)
    ensures var cs := Candidates(avail);
      && Descending(cs) && AllPositive(cs)
      && (forall p :: p in cs <==> p in avail && p.value > 0)
      && SumValues(cs) == SumValues(Positives(avail)) >= 0
  {
    var cs := Candidates(avail);
    LargestFirstSorts(Positives(avail));
    SortedMembers(Positives(avail));
    SumSorted(Positives(avail));
    assert forall i :: 0 <= i < |cs| ==> cs[i] in cs;
    SumNonNegative(cs);
  }

  lemma CoverTakes(d: Debit, avail: seq<Posting>, mayOverdraw: bool)
    requires d.amount <= SumValues(Positives(avail)) && Cover(d, avail, mayOverdraw).Ok?
    ensures Cover(d, avail, mayOverdraw).value.consumed == Candidates(avail)[..Taken(Candidates(avail), d.amount, 0)]
  {
    hide SumValues, Positives, LargestFirst, Taken, RunningFits;
  }

  /** What a cover from sufficient funds consumes: it reaches the debit and falls short
      without its last posting. */
  lemma CoverFunded(d: Debit, avail: seq<Posting>, mayOverdraw: bool)
    requires d.amount > 0 && d.amount <= SumValues(Positives(avail)) && Cover(d, avail, mayOverdraw).Ok?
    ensures var (cs, taken) := (Candidates(avail), Cover(d, avail, mayOverdraw).value.consumed);
      && 1 <= |taken| <= |cs| && taken == cs[..|taken|]
      && SumValues(taken) >= d.amount && SumValues(cs[..|taken| - 1]) < d.amount
  {
    hide Cover, Candidates, SumValues, Positives, Taken;
    CoverTakes(d, avail, mayOverdraw);
    CandidatesSorted(avail);
    var cs := Candidates(avail);
    TakenTight(cs, d.amount, 0);
    SumNone();
    assert cs[..0] == [];
  }

  /** Greedy largest-first is optimal: no set of available postings with fewer members
      covers the debit. */
  lemma GreedyOptimal(d: Debit, avail: seq<Posting>, mayOverdraw: bool, s: set<Posting>)
    requires d.amount > 0 && d.amount <= SumValues(Positives(avail)) && Cover(d, avail, mayOverdraw).Ok?
    requires Within(s, avail) && SumSet(s) >= d.amount
    ensures |Cover(d, avail, mayOverdraw).value.consumed| <= |s|
  {
    hide Cover, Candidates, SumSet, SumValues;
    CoverFunded(d, avail, mayOverdraw);
    CandidatesSorted(avail);
    var cs, k := Candidates(avail), |Cover(d, avail, mayOverdraw).value.consumed|;
    var t := DropNonPositive(s);
    if |t| <= k - 1 {
      LargestDominate(cs, t, k - 1);
    }
  }

  /** The change is smaller than every consumed posting. */
  lemma ChangeSmallest(d: Debit, avail: seq<Posting>, mayOverdraw: bool, i: nat)
    requires d.amount > 0 && d.amount <= SumValues(Positives(avail)) && Cover(d, avail, mayOverdraw).Ok?
    requires i < |Cover(d, avail, mayOverdraw).value.consumed|
    ensures var taken := Cover(d, avail, mayOverdraw).value.consumed;
      SumValues(taken) - d.amount < taken[i].value
  {
    hide Cover, Candidates, SumValues, Positives;
    CoverFunded(d, avail, mayOverdraw);
    CandidatesSorted(avail);
    var cs, taken := Candidates(avail), Cover(d, avail, mayOverdraw).value.consumed;
    PrefixPush(cs, |taken|);
    assert cs[|taken| - 1].value <= cs[i].value;
  }

  // ---- Overflow ----

  lemma ChosenFits(cs: seq<Posting>, k: nat)
    requires k <= |cs| && AllPositive(cs) && Fits(SumValues(cs))
    ensures RunningFits(cs[..k]) && 0 <= SumValues(cs[..k]) <= SumValues(cs)
  {
    var chosen := cs[..k];
    forall j | 0 <= j <= k ensures Fits(SumValues(chosen[..j])) {
      assert chosen[..j] == cs[..j];
      SumPrefix(cs, j);
    }
    SumPrefix(cs, k);
  }

  /** For a positive debit the only overflow is in the total of the positive postings:
      no later step of selection, change or offset can overflow. */
  lemma CoverVerdict(d: Debit, avail: seq<Posting>, mayOverdraw: bool)
    requires d.amount > 0
    ensures var (total, c) := (SumValues(Positives(avail)), Cover(d, avail, mayOverdraw));
      && (c == Err(ResolveOverflow) <==> !Fits(total))
      && (c.Err? && c.error.InsufficientFunds? <==> Fits(total) && total < d.amount && !mayOverdraw)
  {
    hide SumValues, Positives, RunningFits;
    CandidatesSorted(avail);
    if Fits(SumValues(Positives(avail))) {
      var cs := Candidates(avail);
      ChosenFits(cs, Taken(cs, d.amount, 0));
    }
  }

  // ---- Exactness ----

  /** The postings on offer are rows of the posting table, filed under their own holder,
      each listed once. */
  ghost predicate Offered(av: Availability, rows: map<PostingId, Posting>) {
    forall k :: k in av ==>
      && Distinct(av[k])
      && forall p :: p in av[k] ==> p.id in rows && rows[p.id] == p && Key(p.owner, p.asset) == k
  }

  function DebitWeight(sl: Slice, d: Debit): int {
    if Covers(sl, d.key.account, d.key.asset) then d.amount else 0
  }

  function SumDebits(sl: Slice, ds: seq<Debit>): int {
    if ds == [] then 0 else SumDebits(sl, ds[..|ds| - 1]) + DebitWeight(sl, ds[|ds| - 1])
  }

  /** A cover adds exactly what it consumes less the debit. */
  lemma CoverValue(d: Debit, avail: seq<Posting>, mayOverdraw: bool)
    requires Cover(d, avail, mayOverdraw).Ok?
    ensures var s := Cover(d, avail, mayOverdraw).value;
      && |s.created| <= 1
      && SumValues(s.consumed) - d.amount == (if s.created == [] then 0 else s.created[0].value)
      && (s.created != [] ==> s.created[0].owner == d.key.account && s.created[0].asset == d.key.asset)
      && (forall p :: p in s.consumed ==> p in avail)
  {
    hide SumValues, RunningFits, LargestFirst, Positives;
    CandidatesSorted(avail);
    var cs := Candidates(avail);
    TakenTight(cs, d.amount, 0);
    assert cs == [] ==> SumValues(cs) == 0 by {
      SumNone();
    }
    assert cs == [] ==> cs[..0] == cs;
  }

  lemma SumNone()
    ensures SumValues([]) == 0
  {
  }

  lemma {:induction false} SumOneHolder(sl: Slice, ps: seq<Posting>, k: Key)
    requires forall p :: p in ps ==> Key(p.owner, p.asset) == k
    ensures SumPostings(sl, ps) == if Covers(sl, k.account, k.asset) then SumValues(ps) else 0
  {
    if ps != [] {
      SumOneHolder(sl, ps[..|ps| - 1], k);
      assert ps[|ps| - 1] in ps;
    }
  }

  lemma CoverSlice(sl: Slice, d: Debit, av: Availability, accounts: Accounts, rows: map<PostingId, Posting>)
    requires Offered(av, rows) && CoverIn(d, av, accounts).Ok?
    ensures var s := CoverIn(d, av, accounts).value;
      SumNew(sl, s.created) - SumPostings(sl, s.consumed) == -DebitWeight(sl, d)
  {
    hide Cover, SumValues;
    CoverValue(d, Available(av, d.key), MayOverdraw(accounts, d.key.account));
    var s := CoverIn(d, av, accounts).value;
    SumOneHolder(sl, s.consumed, d.key);
    if s.created != [] {
      assert s.created[..0] == [];
      assert SumNew(sl, s.created[..0]) == 0;
    }
  }

  lemma {:induction false} SumPostingsAppend(sl: Slice, a: seq<Posting>, b: seq<Posting>)
    ensures SumPostings(sl, a + b) == SumPostings(sl, a) + SumPostings(sl, b)
  {
    if b == [] {
      assert a + b == a;
    } else {
      assert (a + b)[..|a + b| - 1] == a + b[..|b| - 1];
      SumPostingsAppend(sl, a, b[..|b| - 1]);
    }
  }

  lemma {:induction false} CoverAllSlice(sl: Slice, ds: seq<Debit>, av: Availability, accounts: Accounts, rows: map<PostingId, Posting>)
    requires Offered(av, rows) && CoverAll(ds, av, accounts).Ok?
    ensures var s := CoverAll(ds, av, accounts).value;
      SumNew(sl, s.created) - SumPostings(sl, s.consumed) == -SumDebits(sl, ds)
  {
    hide CoverIn, Offered;
    if ds != [] {
      var front, d := ds[..|ds| - 1], ds[|ds| - 1];
      var s, t := CoverAll(front, av, accounts).value, CoverIn(d, av, accounts).value;
      CoverAllSlice(sl, front, av, accounts, rows);
      CoverSlice(sl, d, av, accounts, rows);
      SumNewAppend(sl, s.created, t.created);
      SumPostingsAppend(sl, s.consumed, t.consumed);
    }
  }

  /** Everything consumed is on offer under some debit's key. */
  lemma {:induction false} ConsumedOffered(ds: seq<Debit>, av: Availability, accounts: Accounts)
    requires CoverAll(ds, av, accounts).Ok?
    ensures forall p :: p in CoverAll(ds, av, accounts).value.consumed ==>
      exists i :: 0 <= i < |ds| && p in Available(av, ds[i].key)
  {
    if ds != [] {
      var front, d := ds[..|ds| - 1], ds[|ds| - 1];
      ConsumedOffered(front, av, accounts);
      CoverValue(d, Available(av, d.key), MayOverdraw(accounts, d.key.account));
      hide Cover, Available;
      forall p | p in CoverAll(ds, av, accounts).value.consumed
        ensures exists i :: 0 <= i < |ds| && p in Available(av, ds[i].key)
      {
        if p in CoverAll(front, av, accounts).value.consumed {
          var i :| 0 <= i < |front| && p in Available(av, front[i].key);
          assert ds[i] == front[i];
        } else {
          assert p in Available(av, ds[|ds| - 1].key);
        }
      }
    }
  }

  lemma {:induction false} SumIdsPostings(sl: Slice, rows: map<PostingId, Posting>, ps: seq<Posting>)
    requires forall p :: p in ps ==> p.id in rows && rows[p.id] == p
    ensures SumIds(sl, rows, PostingIds(ps)) == SumPostings(sl, ps)
  {
    if ps != [] {
      assert PostingIds(ps)[..|ps| - 1] == PostingIds(ps[..|ps| - 1]);
      SumIdsPostings(sl, rows, ps[..|ps| - 1]);
    }
  }

  /** Created less consumed, over any slice, is the movements' credits less the positive
      net debits. */
  lemma ResolvedSlice(sl: Slice, t: Transfer, draft: MovementDraft, av: Availability, accounts: Accounts, rows: map<PostingId, Posting>)
    requires Offered(av, rows) && Resolved(t, draft, av, accounts).Ok?
    ensures var env := Resolved(t, draft, av, accounts).value;
      SumNew(sl, env.creates) - SumIds(sl, rows, env.consumes) == SumNew(sl, draft.creates) - SumDebits(sl, draft.debits)
  {
    var s := CoverAll(draft.debits, av, accounts).value;
    CoverAllSlice(sl, draft.debits, av, accounts, rows);
    SumNewAppend(sl, draft.creates, s.created);
    ConsumedOffered(draft.debits, av, accounts);
    SumIdsPostings(sl, rows, s.consumed);
  }

  // ---- Per holder ----

  ghost predicate DistinctKeys(ds: seq<Debit>) {
    forall i, j :: 0 <= i < j < |ds| ==> ds[i].key != ds[j].key
  }

  lemma {:induction false} SumDebitsAbsent(ds: seq<Debit>, k: Key)
    requires forall i :: 0 <= i < |ds| ==> ds[i].key != k
    ensures SumDebits(OfHolder(k.account, k.asset), ds) == 0
  {
    if ds != [] {
      SumDebitsAbsent(ds[..|ds| - 1], k);
    }
  }

  lemma {:induction false} SumDebitsOne(ds: seq<Debit>, i: nat)
    requires DistinctKeys(ds) && i < |ds|
    ensures SumDebits(OfHolder(ds[i].key.account, ds[i].key.asset), ds) == ds[i].amount
  {
    var front := ds[..|ds| - 1];
    if i < |front| {
      SumDebitsOne(front, i);
    } else {
      SumDebitsAbsent(front, ds[i].key);
    }
  }

  function PositivePart(x: int): int { if x > 0 then x else 0 }

  lemma DraftHolder(ms: seq<Movement>, draft: MovementDraft, k: Key)
    requires DraftOf(ms, draft)
    ensures DistinctKeys(draft.debits)
    ensures SumDebits(OfHolder(k.account, k.asset), draft.debits) == PositivePart(NetDebit(ms, k))
  {
    hide NetDebit;
    if i :| 0 <= i < |draft.debits| && draft.debits[i].key == k {
      SumDebitsOne(draft.debits, i);
    } else {
      SumDebitsAbsent(draft.debits, k);
    }
  }

  // ---- Per asset ----

  ghost function Sources(ms: seq<Movement>): set<Key> { set i | 0 <= i < |ms| :: Source(ms[i]) }

  /** The net debits in one asset. */
  ghost function AssetNets(ms: seq<Movement>, a: AssetId): map<Key, int> {
    map k | k in Sources(ms) && k.asset == a :: NetDebit(ms, k)
  }

  lemma TotalUpdate<K>(m: map<K, int>, k: K, v: int)
    ensures Total(m[k := v]) == Total(m) + v - (if k in m then m[k] else 0)
  {
    if k in m {
      TotalRemove(m, k);
      TotalRemove(m[k := v], k);
      assert m[k := v] - {k} == m - {k};
    } else {
      TotalInsert(m, k, v);
    }
  }

  lemma SourcesPush(ms: seq<Movement>)
    requires ms != []
    ensures Sources(ms) == Sources(ms[..|ms| - 1]) + {Source(ms[|ms| - 1])}
  {
    var front := ms[..|ms| - 1];
    forall i | 0 <= i < |front| ensures Source(ms[i]) in Sources(front) && Source(front[i]) in Sources(ms) {
      assert front[i] == ms[i];
    }
  }

  lemma NetsPush(ms: seq<Movement>, a: AssetId)
    requires ms != []
    ensures var m := ms[|ms| - 1];
      Total(AssetNets(ms, a)) == Total(AssetNets(ms[..|ms| - 1], a)) + (if m.asset == a then m.amount else 0)
  {
    var front, m := ms[..|ms| - 1], ms[|ms| - 1];
    var k := Source(m);
    NetsAfter(ms, a);
    if k !in Sources(front) {
      NoDebitElsewhereSet(front, k);
    }
    hide Sources, NetDebit, Total;
    if m.asset == a {
      TotalUpdate(AssetNets(front, a), k, NetDebit(front, k) + m.amount);
    }
  }

  /** One more movement changes the net debit of its own source only. */
  lemma NetsAfter(ms: seq<Movement>, a: AssetId)
    requires ms != []
    ensures var front, m := ms[..|ms| - 1], ms[|ms| - 1]; var nets := AssetNets(front, a);
      AssetNets(ms, a) == if m.asset == a then nets[Source(m) := NetDebit(front, Source(m)) + m.amount] else nets
  {
    var front, m := ms[..|ms| - 1], ms[|ms| - 1];
    var k := Source(m);
    SourcesPush(ms);
    if k !in Sources(front) {
      NoDebitElsewhereSet(front, k);
    }
    hide Sources;
    if m.asset == a {
      assert AssetNets(ms, a) == AssetNets(front, a)[k := NetDebit(front, k) + m.amount];
    } else {
      assert AssetNets(ms, a) == AssetNets(front, a);
    }
  }

  lemma NoDebitElsewhereSet(ms: seq<Movement>, k: Key)
    requires k !in Sources(ms)
    ensures NetDebit(ms, k) == 0
  {
    NoDebitElsewhere(ms, k);
  }

  /** What leaves the sources in an asset is what the destinations are credited. */
  lemma {:induction false} NetsAreCredits(ms: seq<Movement>, a: AssetId, creates: seq<NewPosting>)
    requires |creates| == |ms| && forall i :: 0 <= i < |ms| ==> creates[i] == Credit(ms[i])
    ensures Total(AssetNets(ms, a)) == SumNew(OfAsset(a), creates)
  {
    if ms == [] {
      assert AssetNets(ms, a) == map[];
    } else {
      hide AssetNets;
      NetsAreCredits(ms[..|ms| - 1], a, creates[..|ms| - 1]);
      NetsPush(ms, a);
    }
  }

  ghost function DebitKeys(ds: seq<Debit>): set<Key> { set i | 0 <= i < |ds| :: ds[i].key }

  ghost function DebitNets(ms: seq<Movement>, a: AssetId, ds: seq<Debit>): map<Key, int> {
    map k | k in DebitKeys(ds) && k.asset == a :: NetDebit(ms, k)
  }

  lemma DebitKeysPush(ds: seq<Debit>)
    requires ds != [] && DistinctKeys(ds)
    ensures DebitKeys(ds) == DebitKeys(ds[..|ds| - 1]) + {ds[|ds| - 1].key}
    ensures ds[|ds| - 1].key !in DebitKeys(ds[..|ds| - 1])
  {
    var front := ds[..|ds| - 1];
    forall i | 0 <= i < |front| ensures ds[i].key in DebitKeys(front) && front[i].key in DebitKeys(ds) {
      assert front[i] == ds[i];
    }
  }

  lemma {:induction false} DebitNetsTotal(ms: seq<Movement>, a: AssetId, ds: seq<Debit>)
    requires DistinctKeys(ds) && forall i :: 0 <= i < |ds| ==> ds[i].amount == NetDebit(ms, ds[i].key)
    ensures Total(DebitNets(ms, a, ds)) == SumDebits(OfAsset(a), ds)
  {
    if ds == [] {
      assert DebitNets(ms, a, ds) == map[];
    } else {
      hide NetDebit, DebitKeys;
      var front, d := ds[..|ds| - 1], ds[|ds| - 1];
      DebitNetsTotal(ms, a, front);
      DebitKeysPush(ds);
      if d.key.asset == a {
        assert DebitNets(ms, a, ds) == DebitNets(ms, a, front)[d.key := d.amount];
        TotalInsert(DebitNets(ms, a, front), d.key, d.amount);
      } else {
        assert DebitNets(ms, a, ds) == DebitNets(ms, a, front);
      }
    }
  }

  ghost function Parts(m: map<Key, int>, sign: bool): map<Key, int> {
    map k | k in m :: if (m[k] > 0) == sign then m[k] else 0
  }

  lemma {:induction false} TotalParts(m: map<Key, int>)
    ensures Total(m) == Total(Parts(m, true)) + Total(Parts(m, false))
    decreases |m|
  {
    hide Total;
    if k :| k in m {
      var rest := m - {k};
      TotalParts(rest);
      assert Parts(m, true) - {k} == Parts(rest, true);
      assert Parts(m, false) - {k} == Parts(rest, false);
      TotalRemove(m, k);
      TotalRemove(Parts(m, true), k);
      TotalRemove(Parts(m, false), k);
    } else {
      TotalZero(m);
      TotalZero(Parts(m, true));
      TotalZero(Parts(m, false));
    }
  }

  /** The sum of the negative net debits in an asset. */
  ghost function NegativeNet(ms: seq<Movement>, a: AssetId): int { Total(Parts(AssetNets(ms, a), false)) }

  lemma DraftAsset(ms: seq<Movement>, draft: MovementDraft, a: AssetId)
    requires DraftOf(ms, draft)
    ensures SumNew(OfAsset(a), draft.creates) - SumDebits(OfAsset(a), draft.debits) == NegativeNet(ms, a)
  {
    var nets := AssetNets(ms, a);
    NetsAreCredits(ms, a, draft.creates);
    TotalParts(nets);
    DraftHolder(ms, draft, Key(AccountId(0, 0), a));
    DebitNetsTotal(ms, a, draft.debits);
    var owed := DebitNets(ms, a, draft.debits);
    forall k | k in owed ensures k in Parts(nets, true) && Parts(nets, true)[k] == owed[k] {
      if k !in Sources(ms) {
        NoDebitElsewhere(ms, k);
      }
    }
    TotalRestrict(Parts(nets, true), owed);
  }

  /** A sum of non-positive amounts is at most any one of them. */
  lemma {:induction false} TotalNonPositive<K>(m: map<K, int>)
    requires forall k :: k in m ==> m[k] <= 0
    ensures Total(m) <= 0 && forall k :: k in m ==> Total(m) <= m[k]
    decreases |m|
  {
    if k :| k in m {
      forall k | k in m ensures Total(m) <= m[k] && Total(m) <= 0 {
        TotalRemove(m, k);
        TotalNonPositive(m - {k});
      }
    } else {
      assert m == map[];
    }
  }

  /** The negative net debits of an asset sum to zero exactly when there is none. */
  lemma NegativeNetZero(ms: seq<Movement>, a: AssetId)
    ensures NegativeNet(ms, a) <= 0
    ensures NegativeNet(ms, a) == 0 <==> forall account :: NetDebit(ms, Key(account, a)) >= 0
  {
    hide NetDebit;
    var parts := Parts(AssetNets(ms, a), false);
    TotalNonPositive(parts);
    forall account | NetDebit(ms, Key(account, a)) < 0 ensures NegativeNet(ms, a) < 0 {
      var k := Key(account, a);
      if k !in Sources(ms) {
        NoDebitElsewhere(ms, k);
      }
      assert k in parts && parts[k] < 0;
    }
    if forall account :: NetDebit(ms, Key(account, a)) >= 0 {
      forall k | k in parts ensures parts[k] == 0 {
        assert k == Key(k.account, a);
      }
      TotalZero(parts);
    }
  }

  // ---- Distinct ids ----

  lemma {:induction false} PositivesPart(ps: seq<Posting>)
    ensures multiset(Positives(ps)) <= multiset(ps)
  {
    if ps != [] {
      PositivesPart(ps[..|ps| - 1]);
      assert ps == ps[..|ps| - 1] + [ps[|ps| - 1]];
    }
  }

  /** A cover takes each posting on offer at most as often as it is offered. */
  lemma CoverPart(d: Debit, avail: seq<Posting>, mayOverdraw: bool)
    requires Cover(d, avail, mayOverdraw).Ok?
    ensures multiset(Cover(d, avail, mayOverdraw).value.consumed) <= multiset(avail)
  {
    hide SumValues, RunningFits, Positives, LargestFirst, Taken;
    var cs := LargestFirst(Positives(avail));
    LargestFirstSorts(Positives(avail));
    PositivesPart(avail);
    PrefixPart(cs, Taken(cs, d.amount, 0));
  }

  lemma PrefixPart(ps: seq<Posting>, k: nat)
    requires k <= |ps|
    ensures multiset(ps[..k]) <= multiset(ps)
  {
    assert ps == ps[..k] + ps[k..];
  }

  ghost predicate Once(ps: seq<Posting>) { forall p :: multiset(ps)[p] <= 1 }

  lemma {:induction false} DistinctOnce(ps: seq<Posting>)
    requires Distinct(ps)
    ensures Once(ps)
  {
    if ps != [] {
      DistinctOnce(ps[..|ps| - 1]);
      assert ps == ps[..|ps| - 1] + [ps[|ps| - 1]];
    }
  }

  lemma OnceDistinct(ps: seq<Posting>)
    requires Once(ps)
    ensures Distinct(ps)
  {
    forall i, j | 0 <= i < j < |ps| ensures ps[i] != ps[j] {
      assert ps == ps[..j] + ps[j..];
      assert ps[i] in multiset(ps[..j]) && ps[j] in multiset(ps[j..]);
      assert multiset(ps)[ps[i]] == multiset(ps[..j])[ps[i]] + multiset(ps[j..])[ps[i]];
    }
  }

  lemma OnceAppend(a: seq<Posting>, b: seq<Posting>)
    requires Once(a) && Once(b) && forall p :: p in a ==> p !in b
    ensures Once(a + b)
  {
    forall p ensures multiset(a + b)[p] <= 1 {
      assert multiset(a + b)[p] == multiset(a)[p] + multiset(b)[p];
      assert p in a <==> p in multiset(a);
      assert p in b <==> p in multiset(b);
    }
  }

  lemma CoverOnce(d: Debit, av: Availability, accounts: Accounts, rows: map<PostingId, Posting>)
    requires Offered(av, rows) && CoverIn(d, av, accounts).Ok?
    ensures Once(CoverIn(d, av, accounts).value.consumed)
    ensures forall p :: p in CoverIn(d, av, accounts).value.consumed ==> Key(p.owner, p.asset) == d.key
  {
    var avail := Available(av, d.key);
    CoverPart(d, avail, MayOverdraw(accounts, d.key.account));
    CoverValue(d, avail, MayOverdraw(accounts, d.key.account));
    DistinctOnce(avail);
  }

  lemma {:induction false} ConsumedOnce(ds: seq<Debit>, av: Availability, accounts: Accounts, rows: map<PostingId, Posting>)
    requires Offered(av, rows) && DistinctKeys(ds) && CoverAll(ds, av, accounts).Ok?
    ensures Once(CoverAll(ds, av, accounts).value.consumed)
    ensures forall p :: p in CoverAll(ds, av, accounts).value.consumed ==>
      exists i :: 0 <= i < |ds| && Key(p.owner, p.asset) == ds[i].key
  {
    hide CoverIn, Offered, Once;
    if ds == [] {
      DistinctOnce([]);
    } else {
      var front, d := ds[..|ds| - 1], ds[|ds| - 1];
      ConsumedOnce(front, av, accounts, rows);
      CoverOnce(d, av, accounts, rows);
      var s, t := CoverAll(front, av, accounts).value, CoverIn(d, av, accounts).value;
      forall p | p in s.consumed ensures p !in t.consumed && exists i :: 0 <= i < |ds| && Key(p.owner, p.asset) == ds[i].key {
        var i :| 0 <= i < |front| && Key(p.owner, p.asset) == front[i].key;
        assert ds[i].key != d.key;
      }
      OnceAppend(s.consumed, t.consumed);
      forall p | p in t.consumed ensures exists i :: 0 <= i < |ds| && Key(p.owner, p.asset) == ds[i].key {
        assert Key(p.owner, p.asset) == ds[|ds| - 1].key;
      }
    }
  }

  // ---- The main results ----

  ghost predicate Conserving(env: Envelope, rows: map<PostingId, Posting>) {
    forall a :: SumNew(OfAsset(a), env.creates) == SumIds(OfAsset(a), rows, env.consumes)
  }

  /** Each holder's change is what the movements credit it less its positive net debit. */
  lemma ResolvedHolder(t: Transfer, draft: MovementDraft, av: Availability, accounts: Accounts, rows: map<PostingId, Posting>, k: Key)
    requires DraftOf(t.movements, draft) && Offered(av, rows) && Resolved(t, draft, av, accounts).Ok?
    ensures var env := Resolved(t, draft, av, accounts).value; var sl := OfHolder(k.account, k.asset);
      SumNew(sl, env.creates) - SumIds(sl, rows, env.consumes) == SumNew(sl, draft.creates) - PositivePart(NetDebit(t.movements, k))
  {
    ResolvedSlice(OfHolder(k.account, k.asset), t, draft, av, accounts, rows);
    DraftHolder(t.movements, draft, k);
  }

  /** Resolution is exact.  Each holder's change is what the movements credit it less its
      positive net debit; each asset's change is the sum of the negative net debits; and
      no posting is consumed twice. */
  lemma ResolutionExact(t: Transfer, draft: MovementDraft, av: Availability, accounts: Accounts, rows: map<PostingId, Posting>)
    requires DraftOf(t.movements, draft) && Offered(av, rows) && Resolved(t, draft, av, accounts).Ok?
    ensures var env := Resolved(t, draft, av, accounts).value;
      && (forall k: Key :: var sl := OfHolder(k.account, k.asset);
        SumNew(sl, env.creates) - SumIds(sl, rows, env.consumes)
        == SumNew(sl, draft.creates) - PositivePart(NetDebit(t.movements, k)))
      && (forall a ::
        SumNew(OfAsset(a), env.creates) - SumIds(OfAsset(a), rows, env.consumes) == NegativeNet(t.movements, a))
      && Distinct(env.consumes)
      && (forall id :: id in env.consumes ==> id in rows)
  {
    var env := Resolved(t, draft, av, accounts).value;
    forall k: Key
      ensures var sl := OfHolder(k.account, k.asset);
        SumNew(sl, env.creates) - SumIds(sl, rows, env.consumes)
        == SumNew(sl, draft.creates) - PositivePart(NetDebit(t.movements, k))
    {
      ResolvedHolder(t, draft, av, accounts, rows, k);
    }
    forall a
      ensures SumNew(OfAsset(a), env.creates) - SumIds(OfAsset(a), rows, env.consumes) == NegativeNet(t.movements, a)
    {
      ResolvedSlice(OfAsset(a), t, draft, av, accounts, rows);
      DraftAsset(t.movements, draft, a);
    }
    ResolvedDistinct(t, draft, av, accounts, rows);
  }

  lemma ResolvedDistinct(t: Transfer, draft: MovementDraft, av: Availability, accounts: Accounts, rows: map<PostingId, Posting>)
    requires DraftOf(t.movements, draft) && Offered(av, rows) && Resolved(t, draft, av, accounts).Ok?
    ensures Distinct(Resolved(t, draft, av, accounts).value.consumes)
    ensures forall id :: id in Resolved(t, draft, av, accounts).value.consumes ==> id in rows
  {
    var taken := CoverAll(draft.debits, av, accounts).value.consumed;
    DraftHolder(t.movements, draft, Key(AccountId(0, 0), 0));
    ConsumedOnce(draft.debits, av, accounts, rows);
    OnceDistinct(taken);
    ConsumedOffered(draft.debits, av, accounts);
    hide CoverAll, DraftOf;
    forall i | 0 <= i < |taken| ensures taken[i].id in rows && rows[taken[i].id] == taken[i] {
      assert taken[i] in taken;
    }
  }

  ghost predicate NoNegativeNet(ms: seq<Movement>) {
    forall k :: NetDebit(ms, k) >= 0
  }

  lemma NoNegativeNetByAsset(ms: seq<Movement>)
    ensures NoNegativeNet(ms) <==> forall a :: NegativeNet(ms, a) == 0
  {
    hide NetDebit, NegativeNet;
    forall a ensures NegativeNet(ms, a) == 0 <==> forall account :: NetDebit(ms, Key(account, a)) >= 0 {
      NegativeNetZero(ms, a);
    }
    forall k | NetDebit(ms, k) < 0 ensures NegativeNet(ms, k.asset) != 0 {
      assert k == Key(k.account, k.asset);
    }
  }

  // ---- Fewest postings for the whole transfer ----

  ghost function PartOf(s: set<Posting>, k: Key): set<Posting> {
    set p | p in s && Key(p.owner, p.asset) == k
  }

  /** `s` is another way to fund the debits from what is on offer. */
  ghost predicate Funds(s: set<Posting>, ds: seq<Debit>, av: Availability) {
    forall i :: 0 <= i < |ds| ==>
      Within(PartOf(s, ds[i].key), Available(av, ds[i].key)) && SumSet(PartOf(s, ds[i].key)) >= ds[i].amount
  }

  ghost predicate Funded(ds: seq<Debit>, av: Availability) {
    forall i :: 0 <= i < |ds| ==> 0 < ds[i].amount <= SumValues(Positives(Available(av, ds[i].key)))
  }

  lemma FundsRest(s: set<Posting>, ds: seq<Debit>, av: Availability)
    requires ds != [] && DistinctKeys(ds) && Funds(s, ds, av)
    ensures Funds(s - PartOf(s, ds[|ds| - 1].key), ds[..|ds| - 1], av)
  {
    hide Within, SumSet, Available;
    var front, k := ds[..|ds| - 1], ds[|ds| - 1].key;
    forall i | 0 <= i < |front| ensures PartOf(s - PartOf(s, k), front[i].key) == PartOf(s, front[i].key) {
      assert front[i] == ds[i] && front[i].key != k;
    }
  }

  lemma CoverAllLast(ds: seq<Debit>, av: Availability, accounts: Accounts)
    requires ds != [] && CoverAll(ds, av, accounts).Ok?
    ensures var (c, d) := (CoverAll(ds[..|ds| - 1], av, accounts), CoverIn(ds[|ds| - 1], av, accounts));
      && c.Ok? && d.Ok?
      && |CoverAll(ds, av, accounts).value.consumed| == |c.value.consumed| + |d.value.consumed|
  {
    hide CoverIn;
  }

  lemma PartSize(s: set<Posting>, k: Key)
    ensures |s - PartOf(s, k)| + |PartOf(s, k)| == |s|
  {
    assert PartOf(s, k) <= s;
  }

  lemma {:induction false} CoverAllFewest(ds: seq<Debit>, av: Availability, accounts: Accounts, s: set<Posting>)
    requires DistinctKeys(ds) && CoverAll(ds, av, accounts).Ok? && Funded(ds, av) && Funds(s, ds, av)
    ensures |CoverAll(ds, av, accounts).value.consumed| <= |s|
  {
    hide CoverIn, CoverAll, Within, SumSet, SumValues, Available, PartOf;
    if |ds| == 0 {
      CoverAllNone(ds, av, accounts);
    } else {
      var front, d := ds[..|ds| - 1], ds[|ds| - 1];
      CoverAllLast(ds, av, accounts);
      PartSize(s, d.key);
      FundsRest(s, ds, av);
      CoverAllFewest(front, av, accounts, s - PartOf(s, d.key));
      GreedyOptimalIn(d, av, accounts, PartOf(s, d.key));
    }
  }

  lemma CoverAllNone(ds: seq<Debit>, av: Availability, accounts: Accounts)
    requires |ds| == 0
    ensures CoverAll(ds, av, accounts) == Ok(Selection([], []))
  {
  }

  lemma GreedyOptimalIn(d: Debit, av: Availability, accounts: Accounts, s: set<Posting>)
    requires 0 < d.amount <= SumValues(Positives(Available(av, d.key))) && CoverIn(d, av, accounts).Ok?
    requires Within(s, Available(av, d.key)) && SumSet(s) >= d.amount
    ensures |CoverIn(d, av, accounts).value.consumed| <= |s|
  {
    GreedyOptimal(d, Available(av, d.key), MayOverdraw(accounts, d.key.account), s);
  }

  /** When the postings on offer fund every net debit, the envelope consumes as few of them
      as any set that would also fund every net debit. */
  lemma ResolutionFewest(t: Transfer, draft: MovementDraft, av: Availability, accounts: Accounts, s: set<Posting>)
    requires DraftOf(t.movements, draft) && Resolved(t, draft, av, accounts).Ok?
    requires Funded(draft.debits, av) && Funds(s, draft.debits, av)
    ensures |Resolved(t, draft, av, accounts).value.consumes| <= |s|
  {
    DraftHolder(t.movements, draft, Key(AccountId(0, 0), 0));
    CoverAllFewest(draft.debits, av, accounts, s);
  }

  /** The resolved envelope conserves every asset exactly when no net debit is negative. */
  lemma ResolutionConserves(t: Transfer, draft: MovementDraft, av: Availability, accounts: Accounts, rows: map<PostingId, Posting>)
    requires DraftOf(t.movements, draft) && Offered(av, rows) && Resolved(t, draft, av, accounts).Ok?
    ensures Conserving(Resolved(t, draft, av, accounts).value, rows) <==> NoNegativeNet(t.movements)
  {
    hide Resolved, NetDebit, NegativeNet, NoNegativeNet, SumNew, SumIds;
    ResolutionExact(t, draft, av, accounts, rows);
    NoNegativeNetByAsset(t.movements);
    var env := Resolved(t, draft, av, accounts).value;
    assert forall a ::
      SumNew(OfAsset(a), env.creates) == SumIds(OfAsset(a), rows, env.consumes) <==> NegativeNet(t.movements, a) == 0;
  }

  // ----- the only overflow of the second pass -----

  /** A failed cover names the first debit that could not be covered, and its error. */
  lemma {:induction false} FirstFailure(ds: seq<Debit>, av: Availability, accounts: Accounts) returns (i: nat)
    requires CoverAll(ds, av, accounts).Err?
    ensures i < |ds| && CoverAll(ds[..i], av, accounts).Ok? && CoverIn(ds[i], av, accounts) == Err(CoverAll(ds, av, accounts).error)
  {
    hide CoverIn;
    var front := ds[..|ds| - 1];
    if CoverAll(front, av, accounts).Err? {
      i := FirstFailure(front, av, accounts);
      assert front[..i] == ds[..i];
    } else {
      i := |ds| - 1;
    }
  }

  ghost predicate TotalOverflows(ds: seq<Debit>, av: Availability, accounts: Accounts, i: nat)
    requires i < |ds|
  {
    CoverAll(ds[..i], av, accounts).Ok? && !Fits(SumValues(Positives(Available(av, ds[i].key))))
  }

  /** Once a draft is made, resolution overflows exactly when the positive postings on offer
      for the first debit that fails have a total beyond 64 bits; no selection, change or
      offset ever does. */
  lemma ResolutionOverflow(t: Transfer, draft: MovementDraft, av: Availability, accounts: Accounts)
    requires DraftOf(t.movements, draft)
    ensures Resolved(t, draft, av, accounts) == Err(ResolveOverflow) <==>
      exists i :: 0 <= i < |draft.debits| && TotalOverflows(draft.debits, av, accounts, i)
  {
    var ds := draft.debits;
    if CoverAll(ds, av, accounts) == Err(ResolveOverflow) {
      var i := FirstFailure(ds, av, accounts);
      CoverVerdict(ds[i], Available(av, ds[i].key), MayOverdraw(accounts, ds[i].key.account));
      assert TotalOverflows(ds, av, accounts, i);
    }
    if i :| 0 <= i < |ds| && TotalOverflows(ds, av, accounts, i) {
      CoverVerdict(ds[i], Available(av, ds[i].key), MayOverdraw(accounts, ds[i].key.account));
      CoverAllFails(ds, i, av, accounts);
    }
  }

  /** A single debit is covered by itself. */
  lemma CoverSingle(d: Debit, av: Availability, accounts: Accounts)
    requires CoverIn(d, av, accounts).Ok?
    ensures CoverAll([d], av, accounts) == CoverIn(d, av, accounts)
  {
    hide CoverIn;
    var s := CoverIn(d, av, accounts).value;
    assert [d][..0] == [];
    assert CoverAll([d][..0], av, accounts) == Ok(Selection([], []));
    assert [] + s.consumed == s.consumed && [] + s.created == s.created;
  }

  // ----- the order of what is selected -----

  /** By account, subaccount and asset. */
  predicate Earlier(a: Key, b: Key) {
    || a.account.id < b.account.id
    || (a.account.id == b.account.id && a.account.sub < b.account.sub)
    || (a.account.id == b.account.id && a.account.sub == b.account.sub && a.asset < b.asset)
  }

  /** Holding by holding in order, and at most one new posting for each. */
  ghost predicate InKeyOrder(consumed: seq<Posting>, created: seq<NewPosting>) {
    && (forall i, j :: 0 <= i < j < |consumed| ==>
          var a, b := Key(consumed[i].owner, consumed[i].asset), Key(consumed[j].owner, consumed[j].asset); a == b || Earlier(a, b))
    && (forall i, j :: 0 <= i < j < |created| ==> Earlier(Key(created[i].owner, created[i].asset), Key(created[j].owner, created[j].asset)))
  }

  lemma OneCreated(d: Debit, av: Availability, accounts: Accounts)
    requires CoverIn(d, av, accounts).Ok?
    ensures var created := CoverIn(d, av, accounts).value.created;
      |created| <= 1 && forall p :: p in created ==> Key(p.owner, p.asset) == d.key
  {
  }

  lemma {:induction false} SelectionOrdered(ds: seq<Debit>, av: Availability, accounts: Accounts, rows: map<PostingId, Posting>)
    requires Offered(av, rows) && CoverAll(ds, av, accounts).Ok?
    requires forall i, j :: 0 <= i < j < |ds| ==> Earlier(ds[i].key, ds[j].key)
    ensures var s := CoverAll(ds, av, accounts).value;
      && InKeyOrder(s.consumed, s.created)
      && (forall p :: p in s.consumed ==> exists i :: 0 <= i < |ds| && Key(p.owner, p.asset) == ds[i].key)
      && (forall p :: p in s.created ==> exists i :: 0 <= i < |ds| && Key(p.owner, p.asset) == ds[i].key)
  {
    hide CoverIn, Offered, Once, Earlier;
    if ds != [] {
      var front, d := ds[..|ds| - 1], ds[|ds| - 1];
      SelectionOrdered(front, av, accounts, rows);
      CoverOnce(d, av, accounts, rows);
      OneCreated(d, av, accounts);
      var s, t := CoverAll(front, av, accounts).value, CoverIn(d, av, accounts).value;
      forall p | p in s.consumed ensures (exists i :: 0 <= i < |ds| && Key(p.owner, p.asset) == ds[i].key) && Earlier(Key(p.owner, p.asset), d.key) {
        var i :| 0 <= i < |front| && Key(p.owner, p.asset) == front[i].key;
        assert ds[i] == front[i];
      }
      forall p | p in s.created ensures (exists i :: 0 <= i < |ds| && Key(p.owner, p.asset) == ds[i].key) && Earlier(Key(p.owner, p.asset), d.key) {
        var i :| 0 <= i < |front| && Key(p.owner, p.asset) == front[i].key;
        assert ds[i] == front[i];
      }
      assert ds[|ds| - 1].key == d.key;
      assert forall i :: 0 <= i < |s.consumed| ==> s.consumed[i] in s.consumed;
      assert forall i :: 0 <= i < |t.consumed| ==> t.consumed[i] in t.consumed;
      assert forall i :: 0 <= i < |s.created| ==> s.created[i] in s.created;
      assert forall i :: 0 <= i < |t.created| ==> t.created[i] in t.created;
      hide CoverAll;
      OrderedParts(s, t, d.key);
    }
  }

  lemma OrderedParts(s: Selection, t: Selection, k: Key)
    requires InKeyOrder(s.consumed, s.created) && |t.created| <= 1
    requires forall i :: 0 <= i < |s.consumed| ==> Earlier(Key(s.consumed[i].owner, s.consumed[i].asset), k)
    requires forall i :: 0 <= i < |s.created| ==> Earlier(Key(s.created[i].owner, s.created[i].asset), k)
    requires forall i :: 0 <= i < |t.consumed| ==> Key(t.consumed[i].owner, t.consumed[i].asset) == k
    requires forall i :: 0 <= i < |t.created| ==> Key(t.created[i].owner, t.created[i].asset) == k
    ensures InKeyOrder(s.consumed + t.consumed, s.created + t.created)
  {
    hide Earlier;
  }

  /** A resolved envelope takes from the debited holdings in order, and gives change or an
      offset back to each of them at most once, in the same order. */
  lemma ResolvedInOrder(t: Transfer, draft: MovementDraft, av: Availability, accounts: Accounts, rows: map<PostingId, Posting>)
    requires DraftOf(t.movements, draft) && Offered(av, rows) && Resolved(t, draft, av, accounts).Ok?
    ensures var env := Resolved(t, draft, av, accounts).value;
      exists consumed: seq<Posting> :: env.consumes == PostingIds(consumed) && InKeyOrder(consumed, env.creates[|t.movements|..])
  {
    assert forall i, j :: 0 <= i < j < |draft.debits| ==> Earlier(draft.debits[i].key, draft.debits[j].key);
    SelectionOrdered(draft.debits, av, accounts, rows);
    hide Earlier, InKeyOrder, CoverAll, NetDebit;
    var s := CoverAll(draft.debits, av, accounts).value;
    assert (draft.creates + s.created)[|t.movements|..] == s.created;
  }
}

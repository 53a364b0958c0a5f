/** Intent resolution: movements become postings to consume and create. */
module Resolution {
  import opened Wrappers
  import opened Domain
  import opened Sorting

  // ---- Pass 1: draft ----

  datatype Key = Key(account: AccountId, asset: AssetId)

  datatype Debit = Debit(key: Key, amount: Cent)

  datatype MovementDraft = MovementDraft(creates: seq<NewPosting>, debits: seq<Debit>)

  predicate KeyLess(a: Key, b: Key) {
    || a.account.id < b.account.id
    || (a.account.id == b.account.id && a.account.sub < b.account.sub)
    || (a.account == b.account && a.asset < b.asset)
  }

  lemma KeyLessStrict()
    ensures StrictOrder(KeyLess)
  {
  }

  function Credit(m: Movement): NewPosting {
    NewPosting(m.to, m.asset, m.amount, if m.from != m.to then Some(m.from) else None)
  }

  function Source(m: Movement): Key { Key(m.from, m.asset) }

  /** What the movements take from one (account, asset), before any netting of sign. */
  function NetDebit(ms: seq<Movement>, k: Key): int {
    if ms == [] then 0
    else
      var m := ms[|ms| - 1];
      NetDebit(ms[..|ms| - 1], k) + (if Source(m) == k then m.amount else 0)
  }

  /** Some running net debit leaves the representable range. */
  ghost predicate DraftOverflows(ms: seq<Movement>) {
    exists i :: 0 <= i < |ms| && !Fits(NetDebit(ms[..i + 1], Source(ms[i])))
  }

  /** Exactly the positive net debits, each once, in (account, asset) order. */
  ghost predicate DraftOf(ms: seq<Movement>, d: MovementDraft) {
    && |d.creates| == |ms|
    && (forall i :: 0 <= i < |ms| ==> d.creates[i] == Credit(ms[i]))
    && (forall i, j :: 0 <= i < j < |d.debits| ==> KeyLess(d.debits[i].key, d.debits[j].key))
    && (forall i :: 0 <= i < |d.debits| ==> d.debits[i].amount == NetDebit(ms, d.debits[i].key) > 0)
    && (forall k :: NetDebit(ms, k) > 0 ==> exists i :: 0 <= i < |d.debits| && d.debits[i].key == k)
  }

  lemma {:induction false} NoDebitElsewhere(ms: seq<Movement>, k: Key)
    requires forall i :: 0 <= i < |ms| ==> Source(ms[i]) != k
    ensures NetDebit(ms, k) == 0
  {
    if ms != [] {
      NoDebitElsewhere(ms[..|ms| - 1], k);
    }
  }

  method DraftMovements(ms: seq<Movement>) returns (r: Result<MovementDraft, Overflow>)
    ensures r.Err? <==> DraftOverflows(ms)
    ensures r.Ok? ==> DraftOf(ms, r.value)
  {
    var creates: seq<NewPosting> := [];
    var net: map<Key, Cent> := map[];
    hide Netted, NetDebit, DraftOf;
    assert Netted(ms[..0], net) by { NettedNone(ms); }
    for i := 0 to |ms|
      invariant |creates| == i && forall j :: 0 <= j < i ==> creates[j] == Credit(ms[j])
      invariant Netted(ms[..i], net)
      invariant forall j :: 0 <= j < i ==> Fits(NetDebit(ms[..j + 1], Source(ms[j])))
    {
      var m := ms[i];
      var k := Source(m);
      creates := creates + [Credit(m)];
      var entry := if k in net then net[k] else 0;
      var sum := Checked(entry as int + m.amount);
      NettedPush(ms, i, net);
      if sum.Err? {
        assert DraftOverflows(ms);
        return Err(Overflow);
      }
      net := net[k := sum.value];
    }
    assert ms[..|ms|] == ms;
    var debits := PositiveDebits(net);
    DraftComplete(ms, net, creates, debits);
    return Ok(MovementDraft(creates, debits));
  }

  /** The map holds the net debit of every source so far. */
  ghost predicate Netted(ms: seq<Movement>, net: map<Key, Cent>) {
    && (forall j :: 0 <= j < |ms| ==> Source(ms[j]) in net)
    && (forall k :: k in net ==> net[k] == NetDebit(ms, k))
  }

  lemma NettedPush(ms: seq<Movement>, i: nat, net: map<Key, Cent>)
    requires i < |ms| && Netted(ms[..i], net)
    ensures var k := Source(ms[i]); var debit := (if k in net then net[k] as int else 0) + ms[i].amount;
      && NetDebit(ms[..i + 1], k) == debit
      && (Fits(debit) ==> Netted(ms[..i + 1], net[k := debit]))
  {
    assert ms[..i + 1][..i] == ms[..i];
    if Source(ms[i]) !in net {
      assert forall j :: 0 <= j < i ==> ms[..i][j] == ms[j];
      NoDebitElsewhere(ms[..i], Source(ms[i]));
    }
  }

  /** Only sources of movements have a net debit. */
  lemma DraftComplete(ms: seq<Movement>, net: map<Key, Cent>, creates: seq<NewPosting>, debits: seq<Debit>)
    requires Netted(ms, net) && |creates| == |ms| && forall j :: 0 <= j < |ms| ==> creates[j] == Credit(ms[j])
    requires forall i, j :: 0 <= i < j < |debits| ==> KeyLess(debits[i].key, debits[j].key)
    requires forall i :: 0 <= i < |debits| ==> debits[i].key in net && net[debits[i].key] == debits[i].amount > 0
    requires forall k :: k in net && net[k] > 0 ==> exists i :: 0 <= i < |debits| && debits[i].key == k
    ensures DraftOf(ms, MovementDraft(creates, debits))
  {
    hide KeyLess;
    forall k | k !in net ensures NetDebit(ms, k) == 0 {
      NoDebitElsewhere(ms, k);
    }
    hide NetDebit;
  }

  lemma NettedNone(ms: seq<Movement>)
    ensures Netted(ms[..0], map[])
  {
  }

  /** The positive entries of the map, whatever order it is iterated in, sorted by key. */
  method PositiveDebits(net: map<Key, Cent>) returns (debits: seq<Debit>)
    ensures forall i, j :: 0 <= i < j < |debits| ==> KeyLess(debits[i].key, debits[j].key)
    ensures forall i :: 0 <= i < |debits| ==> debits[i].key in net && net[debits[i].key] == debits[i].amount > 0
    ensures forall k :: k in net && net[k] > 0 ==> exists i :: 0 <= i < |debits| && debits[i].key == k
  {
    var keys: seq<Key> := [];
    var rest := net.Keys;
    while rest != {}
      invariant rest <= net.Keys
      invariant forall k :: k in keys ==> k in net && net[k] > 0
      invariant forall k :: k in net && net[k] > 0 ==> k in keys || k in rest
      decreases |rest|
    {
      var k :| k in rest;
      rest := rest - {k};
      if net[k] > 0 {
        keys := keys + [k];
      }
    }
    KeyLessStrict();
    var sorted := SortDedup(KeyLess, keys);
    SortDedupAscending(KeyLess, keys);
    assert forall i :: 0 <= i < |sorted| ==> sorted[i] in keys;
    debits := seq(|sorted|, i requires 0 <= i < |sorted| && sorted[i] in net => Debit(sorted[i], net[sorted[i]]));
    forall k | k in net && net[k] > 0
      ensures exists i :: 0 <= i < |debits| && debits[i].key == k
    {
      var i :| 0 <= i < |sorted| && sorted[i] == k;
      assert debits[i].key == k;
    }
  }

  // ---- Pass 2: selection ----

  datatype ResolveError =
    | InsufficientFunds(available: Cent, requested: Cent)
    | ResolveOverflow

  datatype Selection = Selection(consumed: seq<Posting>, created: seq<NewPosting>)

  function SumValues(ps: seq<Posting>): int {
    if ps == [] then 0 else SumValues(ps[..|ps| - 1]) + ps[|ps| - 1].value
  }

  function Positives(ps: seq<Posting>): (r: seq<Posting>)
    ensures forall p :: p in r <==> p in ps && p.value > 0
  {
    if ps == [] then []
    else Positives(ps[..|ps| - 1]) + if ps[|ps| - 1].value > 0 then [ps[|ps| - 1]] else []
  }

  /** Stable insertion: behind every equal or larger value. */
  function InsertByValue(ps: seq<Posting>, p: Posting): (r: seq<Posting>)
    ensures |r| == |ps| + 1
  {
    if ps == [] || ps[|ps| - 1].value >= p.value then ps + [p]
    else InsertByValue(ps[..|ps| - 1], p) + [ps[|ps| - 1]]
  }

  /** A stable sort by value, largest first. */
  function LargestFirst(ps: seq<Posting>): (r: seq<Posting>)
    ensures |r| == |ps|
  {
    if ps == [] then [] else InsertByValue(LargestFirst(ps[..|ps| - 1]), ps[|ps| - 1])
  }

  /** How many candidates a running sum takes before it reaches `amount`. */
  function Taken(cs: seq<Posting>, amount: int, sum: int): (k: nat)
    ensures k <= |cs|
  {
    if cs == [] then 0
    else if sum + cs[0].value >= amount then 1
    else 1 + Taken(cs[1..], amount, sum + cs[0].value)
  }

  /** No running sum over the sequence leaves the representable range. */
  ghost predicate RunningFits(ps: seq<Posting>) {
    forall j :: 0 <= j <= |ps| ==> Fits(SumValues(ps[..j]))
  }

  function Offset(d: Debit, value: Cent): NewPosting {
    NewPosting(d.key.account, d.key.asset, value, None)
  }

  /** How one debit is covered: from the largest postings with change, or, where the
      account may overdraw, from every positive posting and a negative offset. */
  ghost function Cover(d: Debit, avail: seq<Posting>, mayOverdraw: bool): Result<Selection, ResolveError> {
    var positives := Positives(avail);
    var total := SumValues(positives);
    if !Fits(total) then Err(ResolveOverflow)
    else if total >= d.amount then
      var cs := LargestFirst(positives);
      var chosen := cs[..Taken(cs, d.amount, 0)];
      var change := SumValues(chosen) - d.amount;
      if !RunningFits(chosen) || !Fits(change) then Err(ResolveOverflow)
      else Ok(Selection(chosen, if change > 0 then [Offset(d, change)] else []))
    else if mayOverdraw then
      if !Fits(d.amount - total) || !Fits(total - d.amount) then Err(ResolveOverflow)
      else Ok(Selection(positives, [Offset(d, total - d.amount)]))
    else Err(InsufficientFunds(total, d.amount))
  }

  type Availability = map<Key, seq<Posting>>
  type Accounts = map<AccountId, Account>

  function Available(av: Availability, k: Key): seq<Posting> { if k in av then av[k] else [] }

  function MayOverdraw(accounts: Accounts, a: AccountId): bool {
    a in accounts && !accounts[a].ForbidsOverdraft()
  }

  ghost function CoverIn(d: Debit, av: Availability, accounts: Accounts): Result<Selection, ResolveError> {
    Cover(d, Available(av, d.key), MayOverdraw(accounts, d.key.account))
  }

  /** All debits covered in order; the first that cannot be is the failure. */
  ghost function CoverAll(ds: seq<Debit>, av: Availability, accounts: Accounts): Result<Selection, ResolveError> {
    if ds == [] then Ok(Selection([], []))
    else
      match CoverAll(ds[..|ds| - 1], av, accounts)
      case Err(e) => Err(e)
      case Ok(s) =>
        match CoverIn(ds[|ds| - 1], av, accounts)
        case Err(e) => Err(e)
        case Ok(t) => Ok(Selection(s.consumed + t.consumed, s.created + t.created))
  }

  function PostingIds(ps: seq<Posting>): (ids: seq<PostingId>)
    ensures |ids| == |ps| && forall i :: 0 <= i < |ps| ==> ids[i] == ps[i].id
  {
    seq(|ps|, i requires 0 <= i < |ps| => ps[i].id)
  }

  ghost function Resolved(t: Transfer, draft: MovementDraft, av: Availability, accounts: Accounts): Result<Envelope, ResolveError> {
    match CoverAll(draft.debits, av, accounts)
    case Err(e) => Err(e)
    case Ok(s) => Ok(Envelope(PostingIds(s.consumed), draft.creates + s.created, [], t.book, t.metadata))
  }

  // ---- The code's loops ----

  lemma {:induction false} SumAppend(a: seq<Posting>, b: seq<Posting>)
    ensures SumValues(a + b) == SumValues(a) + SumValues(b)
  {
    if b == [] {
      assert a + b == a;
    } else {
      assert (a + b)[..|a + b| - 1] == a + b[..|b| - 1];
      SumAppend(a, b[..|b| - 1]);
    }
  }

  lemma {:induction false} SumNonNegative(ps: seq<Posting>)
    requires forall i :: 0 <= i < |ps| ==> ps[i].value > 0
    ensures SumValues(ps) >= 0
  {
    if ps != [] {
      SumNonNegative(ps[..|ps| - 1]);
    }
  }

  /** A prefix of positive values sums to no more than the whole. */
  lemma SumPrefix(ps: seq<Posting>, k: nat)
    requires k <= |ps| && forall i :: 0 <= i < |ps| ==> ps[i].value > 0
    ensures 0 <= SumValues(ps[..k]) <= SumValues(ps)
  {
    assert ps == ps[..k] + ps[k..];
    SumAppend(ps[..k], ps[k..]);
    SumNonNegative(ps[..k]);
    SumNonNegative(ps[k..]);
  }

  /** The running sum overflows exactly when the total does: the values are positive. */
  method CheckedSum(ps: seq<Posting>) returns (r: Result<Cent, Overflow>)
    requires forall i :: 0 <= i < |ps| ==> ps[i].value > 0
    ensures r == Checked(SumValues(ps))
  {
    var sum: Cent := 0;
    for i := 0 to |ps|
      invariant sum == SumValues(ps[..i])
    {
      assert ps[..i + 1][..i] == ps[..i];
      var next := Checked(sum as int + ps[i].value);
      if next.Err? {
        SumPrefix(ps, i + 1);
        return Err(Overflow);
      }
      sum := next.value;
    }
    assert ps[..|ps|] == ps;
    return Ok(sum);
  }

  /** One more candidate: what the loop below keeps. */
  lemma TakenPush(cs: seq<Posting>, i: nat, amount: int)
    requires i < |cs|
    ensures var (sum, next) := (SumValues(cs[..i]), SumValues(cs[..i + 1]));
      && next == sum + cs[i].value
      && Taken(cs[i..], amount, sum) == if next >= amount then 1 else 1 + Taken(cs[i + 1..], amount, next)
  {
    assert cs[..i + 1][..i] == cs[..i] && cs[i..][1..] == cs[i + 1..];
  }

  /** Takes candidates in order until their sum reaches `amount`. */
  method TakeUntil(cs: seq<Posting>, amount: int) returns (r: Result<(seq<PostingId>, Cent), Overflow>)
    ensures var chosen := cs[..Taken(cs, amount, 0)];
      r == if RunningFits(chosen) then Ok((PostingIds(chosen), SumValues(chosen))) else Err(Overflow)
  {
    var ids: seq<PostingId>, sum: Cent := [], 0;
    var i := 0;
    ghost var taken := Taken(cs, amount, 0);
    assert cs[0..] == cs;
    assert RunningFits(cs[..0]);
    assert SumValues(cs[..0]) == 0;
    hide Taken, SumValues;
    while i < |cs|
      invariant 0 <= i <= |cs| && ids == PostingIds(cs[..i]) && sum == SumValues(cs[..i])
      invariant taken == i + Taken(cs[i..], amount, sum)
      invariant RunningFits(cs[..i])
    {
      ids := ids + [cs[i].id];
      TakenPush(cs, i, amount);
      var next := Checked(sum as int + cs[i].value);
      if next.Err? {
        assert cs[..taken][..i + 1] == cs[..i + 1];
        return Err(Overflow);
      }
      RunningFitsPush(cs, i);
      assert ids == PostingIds(cs[..i + 1]);
      sum := next.value;
      i := i + 1;
      if sum >= amount {
        break;
      }
    }
    return Ok((ids, sum));
  }

  lemma RunningFitsPush(cs: seq<Posting>, i: nat)
    requires i < |cs| && RunningFits(cs[..i]) && Fits(SumValues(cs[..i + 1]))
    ensures RunningFits(cs[..i + 1])
  {
    var longer := cs[..i + 1];
    forall j | 0 <= j <= i + 1 ensures Fits(SumValues(longer[..j])) {
      if j <= i {
        assert cs[..i + 1][..j] == cs[..i][..j];
      } else {
        assert cs[..i + 1][..j] == cs[..i + 1];
      }
    }
  }

  /** One debit's turn: the ids it consumes and the posting it adds, if any. */
  method CoverDebit(d: Debit, avail: seq<Posting>, mayOverdraw: bool)
    returns (r: Result<(seq<PostingId>, seq<NewPosting>), ResolveError>)
    ensures r.Err? ==> Cover(d, avail, mayOverdraw) == Err(r.error)
    ensures r.Ok? ==> Cover(d, avail, mayOverdraw).Ok?
    ensures r.Ok? ==> r.value.0 == PostingIds(Cover(d, avail, mayOverdraw).value.consumed)
    ensures r.Ok? ==> r.value.1 == Cover(d, avail, mayOverdraw).value.created
  {
    var positives := Positives(avail);
    assert forall i :: 0 <= i < |positives| ==> positives[i] in positives;
    var total := CheckedSum(positives);
    if total.Err? {
      return Err(ResolveOverflow);
    }
    if total.value >= d.amount {
      var taken := TakeUntil(LargestFirst(positives), d.amount);
      if taken.Err? {
        return Err(ResolveOverflow);
      }
      var (ids, sum) := taken.value;
      var change := Checked(sum as int - d.amount);
      if change.Err? {
        return Err(ResolveOverflow);
      }
      return Ok((ids, if change.value > 0 then [Offset(d, change.value)] else []));
    }
    if !mayOverdraw {
      return Err(InsufficientFunds(total.value, d.amount));
    }
    var shortfall := Checked(d.amount as int - total.value);
    if shortfall.Err? {
      return Err(ResolveOverflow);
    }
    var negated := Checked(-shortfall.value);
    if negated.Err? {
      return Err(ResolveOverflow);
    }
    return Ok((PostingIds(positives), [Offset(d, negated.value)]));
  }

  lemma CoverAllPush(ds: seq<Debit>, i: nat, av: Availability, accounts: Accounts)
    requires i < |ds| && CoverAll(ds[..i], av, accounts).Ok? && CoverIn(ds[i], av, accounts).Ok?
    ensures CoverAll(ds[..i + 1], av, accounts).Ok?
    ensures var (s, t, u) := (CoverAll(ds[..i], av, accounts).value, CoverIn(ds[i], av, accounts).value, CoverAll(ds[..i + 1], av, accounts).value);
      PostingIds(u.consumed) == PostingIds(s.consumed) + PostingIds(t.consumed) && u.created == s.created + t.created
  {
    hide CoverIn;
    assert ds[..i + 1][..i] == ds[..i];
  }

  method ResolveEnvelope(t: Transfer, draft: MovementDraft, av: Availability, accounts: Accounts)
    returns (r: Result<Envelope, ResolveError>)
    ensures r == Resolved(t, draft, av, accounts)
  {
    var creates, consumes: seq<PostingId> := draft.creates, [];
    var ds := draft.debits;
    assert CoverAll(ds[..0], av, accounts) == Ok(Selection([], []));
    hide CoverAll, Cover;
    for i := 0 to |ds|
      invariant CoverAll(ds[..i], av, accounts).Ok?
      invariant consumes == PostingIds(CoverAll(ds[..i], av, accounts).value.consumed)
      invariant creates == draft.creates + CoverAll(ds[..i], av, accounts).value.created
    {
      var c := CoverDebit(ds[i], Available(av, ds[i].key), MayOverdraw(accounts, ds[i].key.account));
      if c.Err? {
        CoverAllFails(ds, i, av, accounts);
        return Err(c.error);
      }
      CoverAllPush(ds, i, av, accounts);
      consumes := consumes + c.value.0;
      creates := creates + c.value.1;
    }
    assert ds[..|ds|] == ds;
    return Ok(Envelope(consumes, creates, [], t.book, t.metadata));
  }

  /** The first debit that cannot be covered decides. */
  lemma {:induction false} CoverAllFails(ds: seq<Debit>, i: nat, av: Availability, accounts: Accounts)
    requires i < |ds| && CoverAll(ds[..i], av, accounts).Ok? && CoverIn(ds[i], av, accounts).Err?
    ensures CoverAll(ds, av, accounts) == Err(CoverIn(ds[i], av, accounts).error)
  {
    var front := ds[..|ds| - 1];
    if i < |front| {
      assert front[..i] == ds[..i];
      CoverAllFails(front, i, av, accounts);
    }
  }
}

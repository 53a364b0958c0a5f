/** `validate_and_plan`: the pure decision whether an envelope may be committed
    against loaded state (crates/kuatia-core/src/validate.rs). */
module Validate {
  import opened Wrappers
  import opened Domain
  import opened Amounts
  import opened Canonical
  import opened Sorting

  type BalanceKey = (AccountId, AssetId)

  datatype PlanInput = PlanInput(
    envelope: Envelope,
    consumedPostings: seq<Posting>,
    accounts: map<AccountId, Account>,
    balances: map<BalanceKey, Cent>,
    book: Option<Book>)

  datatype Plan = Plan(
    transferId: EnvelopeId,
    deactivate: seq<PostingId>,
    create: seq<Posting>)

  datatype ValidationError =
    | EmptyTransfer
    | DuplicateConsumedPosting(id: PostingId)
    | PostingNotFound(id: PostingId)
    | AccountNotFound(account: AccountId)
    | AccountFrozen(account: AccountId)
    | AccountClosed(account: AccountId)
    | ConservationViolation(asset: AssetId, consumedSum: Cent, createdSum: Cent)
    | OverdraftExceeded(account: AccountId, asset: AssetId, projected: Cent)
    | AccountVersionMismatch(account: AccountId, expected: Bytes32, actual: Bytes32)
    | NegativePostingOnNonSystemAccount(account: AccountId, asset: AssetId, value: Cent)
    | BookAssetNotAllowed(book: BookId, asset: AssetId)
    | BookAccountNotAllowed(book: BookId, account: AccountId)
    | MonetaryOverflow

  // ----- the key sets validation reads -----

  predicate AccountLess(a: AccountId, b: AccountId) {
    a.id < b.id || (a.id == b.id && a.sub < b.sub)
  }

  predicate KeyLess(a: BalanceKey, b: BalanceKey) {
    AccountLess(a.0, b.0) || (a.0 == b.0 && a.1 < b.1)
  }

  function OwnerWalk(e: Envelope, consumed: seq<Posting>): seq<AccountId> {
    seq(|e.creates|, i requires 0 <= i < |e.creates| => e.creates[i].owner)
    + seq(|consumed|, i requires 0 <= i < |consumed| => consumed[i].owner)
  }

  function KeyWalk(e: Envelope, consumed: seq<Posting>): seq<BalanceKey> {
    seq(|e.creates|, i requires 0 <= i < |e.creates| => (e.creates[i].owner, e.creates[i].asset))
    + seq(|consumed|, i requires 0 <= i < |consumed| => (consumed[i].owner, consumed[i].asset))
  }

  /** Owners of created and consumed postings, each once and in order. */
  function Owners(e: Envelope, consumed: seq<Posting>): (r: seq<AccountId>)
    ensures forall i :: 0 <= i < |e.creates| ==> e.creates[i].owner in r
    ensures forall i :: 0 <= i < |consumed| ==> consumed[i].owner in r
    ensures forall a :: a in r ==>
      (exists i :: 0 <= i < |e.creates| && e.creates[i].owner == a)
      || (exists i :: 0 <= i < |consumed| && consumed[i].owner == a)
  {
    var walk := OwnerWalk(e, consumed);
    assert forall i :: 0 <= i < |e.creates| ==> e.creates[i].owner == walk[i];
    assert forall i :: 0 <= i < |consumed| ==> consumed[i].owner == walk[|e.creates| + i];
    SortDedup(AccountLess, walk)
  }

  function BalanceKeys(e: Envelope, consumed: seq<Posting>): (r: seq<BalanceKey>)
    ensures forall i :: 0 <= i < |e.creates| ==> (e.creates[i].owner, e.creates[i].asset) in r
    ensures forall i :: 0 <= i < |consumed| ==> (consumed[i].owner, consumed[i].asset) in r
  {
    var walk := KeyWalk(e, consumed);
    assert forall i :: 0 <= i < |e.creates| ==> (e.creates[i].owner, e.creates[i].asset) == walk[i];
    assert forall i :: 0 <= i < |consumed| ==> (consumed[i].owner, consumed[i].asset) == walk[|e.creates| + i];
    SortDedup(KeyLess, walk)
  }

  datatype RequiredState = RequiredState(
    consumed: seq<PostingId>, accounts: seq<AccountId>, balances: seq<BalanceKey>)

  function SnapshotAccounts(e: Envelope): seq<AccountId> {
    seq(|e.snapshots|, i requires 0 <= i < |e.snapshots| => e.snapshots[i].account)
  }

  function Required(e: Envelope, consumed: seq<Posting>): RequiredState {
    RequiredState(
      e.consumes,
      SortDedup(AccountLess, Owners(e, consumed) + SnapshotAccounts(e)),
      BalanceKeys(e, consumed))
  }

  // ----- the declarative rule -----

  predicate NonEmpty(inp: PlanInput) { inp.envelope.consumes != [] || inp.envelope.creates != [] }

  function Rows(inp: PlanInput): map<PostingId, Posting> { Put(map[], inp.consumedPostings) }

  predicate Found(inp: PlanInput) {
    forall i :: 0 <= i < |inp.envelope.consumes| ==> inp.envelope.consumes[i] in Rows(inp)
  }

  predicate Usable(accounts: map<AccountId, Account>, a: AccountId) {
    a in accounts && !accounts[a].IsFrozen() && !accounts[a].IsClosed()
  }

  predicate OwnersUsable(inp: PlanInput) {
    var owners := Owners(inp.envelope, inp.consumedPostings);
    forall a :: a in owners ==> Usable(inp.accounts, a)
  }

  predicate Pinned(digest: Digest, inp: PlanInput, s: AccountSnapshotId) {
    s.account in inp.accounts && AccountHash(digest, inp.accounts[s.account]) == s.snapshotId
  }

  predicate SnapshotsCurrent(digest: Digest, inp: PlanInput) {
    forall i :: 0 <= i < |inp.envelope.snapshots| ==> Pinned(digest, inp, inp.envelope.snapshots[i])
  }

  /** Two flag words share a bit. */
  predicate Intersects(a: nat, b: nat) {
    a > 0 && b > 0 && ((a % 2 == 1 && b % 2 == 1) || Intersects(a / 2, b / 2))
  }

  predicate AssetAllowed(p: BookPolicy, asset: AssetId) {
    p.allowedAssets == [] || asset in p.allowedAssets
  }

  predicate AccountAllowed(p: BookPolicy, a: AccountId, account: Account) {
    || (p.allowedAccounts == [] && p.allowedFlags == 0)
    || a.Base() in p.allowedAccounts
    || Intersects(account.flags, p.allowedFlags)
  }

  predicate BookAdmits(inp: PlanInput)
    requires Found(inp) && OwnersUsable(inp)
  {
    inp.book.Some? ==>
      var policy := inp.book.value.policy;
      && (forall i :: 0 <= i < |inp.envelope.consumes| ==>
            AssetAllowed(policy, Rows(inp)[inp.envelope.consumes[i]].asset))
      && (forall i :: 0 <= i < |inp.envelope.creates| ==> AssetAllowed(policy, inp.envelope.creates[i].asset))
      && (var owners := Owners(inp.envelope, inp.consumedPostings);
          forall a :: a in owners ==> AccountAllowed(policy, a, inp.accounts[a]))
  }

  function Consumed(inp: PlanInput, sl: Slice, k: nat): int
    requires k <= |inp.envelope.consumes|
  {
    SumIds(sl, Rows(inp), inp.envelope.consumes[..k])
  }

  function Created(inp: PlanInput, sl: Slice, k: nat): int
    requires k <= |inp.envelope.creates|
  {
    SumNew(sl, inp.envelope.creates[..k])
  }

  /** What the envelope adds to a slice. */
  function NetOf(inp: PlanInput, sl: Slice): int {
    Created(inp, sl, |inp.envelope.creates|) - Consumed(inp, sl, |inp.envelope.consumes|)
  }

  ghost predicate Conserves(inp: PlanInput) {
    && (forall k, a: AssetId :: 0 <= k <= |inp.envelope.consumes| ==> Fits(Consumed(inp, OfAsset(a), k)))
    && (forall k, a: AssetId :: 0 <= k <= |inp.envelope.creates| ==> Fits(Created(inp, OfAsset(a), k)))
    && (forall a: AssetId :: NetOf(inp, OfAsset(a)) == 0)
  }

  predicate Permits(accounts: map<AccountId, Account>, np: NewPosting) {
    np.value < 0 ==> np.owner in accounts && !accounts[np.owner].ForbidsOverdraft()
  }

  predicate NegativesPermitted(inp: PlanInput) {
    forall i :: 0 <= i < |inp.envelope.creates| ==> Permits(inp.accounts, inp.envelope.creates[i])
  }

  function BalanceOf(inp: PlanInput, key: BalanceKey): Cent {
    if key in inp.balances then inp.balances[key] else 0
  }

  function Holding(key: BalanceKey): Slice { OfHolder(key.0, key.1) }

  /** One holder's running delta once everything is spent and `k` postings are created. */
  function Running(inp: PlanInput, key: BalanceKey, k: nat): int
    requires k <= |inp.envelope.creates|
  {
    Created(inp, Holding(key), k) - Consumed(inp, Holding(key), |inp.envelope.consumes|)
  }

  ghost predicate DeltasFit(inp: PlanInput) {
    && (forall k, key: BalanceKey :: 0 <= k <= |inp.envelope.consumes| ==> Fits(-Consumed(inp, Holding(key), k)))
    && (forall k, key: BalanceKey :: 0 <= k <= |inp.envelope.creates| ==> Fits(Running(inp, key, k)))
  }

  predicate FloorOk(inp: PlanInput, key: BalanceKey)
    requires key.0 in inp.accounts
  {
    inp.accounts[key.0].ForbidsOverdraft() ==>
      0 <= BalanceOf(inp, key) + NetOf(inp, Holding(key)) <= CENT_MAX
  }

  function ConsumedKeys(inp: PlanInput, k: nat): set<BalanceKey>
    requires Found(inp) && k <= |inp.envelope.consumes|
  {
    set i | 0 <= i < k :: (Rows(inp)[inp.envelope.consumes[i]].owner, Rows(inp)[inp.envelope.consumes[i]].asset)
  }

  function CreatedKeys(inp: PlanInput, k: nat): set<BalanceKey>
    requires k <= |inp.envelope.creates|
  {
    set i | 0 <= i < k :: (inp.envelope.creates[i].owner, inp.envelope.creates[i].asset)
  }

  /** The (owner, asset) pairs the envelope itself touches. */
  function Touched(inp: PlanInput): (r: set<BalanceKey>)
    requires Found(inp)
  {
    ConsumedKeys(inp, |inp.envelope.consumes|) + CreatedKeys(inp, |inp.envelope.creates|)
  }

  /** Every consumed row comes from the loaded postings, so its owner was loaded. */
  lemma RowsLoaded(inp: PlanInput, id: PostingId)
    requires id in Rows(inp)
    ensures Rows(inp)[id].id == id
    ensures exists i :: 0 <= i < |inp.consumedPostings| && inp.consumedPostings[i] == Rows(inp)[id]
    ensures Rows(inp)[id].owner in Owners(inp.envelope, inp.consumedPostings)
  {
    PutSource(inp.consumedPostings, id);
  }

  lemma {:induction false} PutSource(ps: seq<Posting>, id: PostingId)
    requires id in Put(map[], ps)
    ensures exists i :: 0 <= i < |ps| && ps[i] == Put(map[], ps)[id] && ps[i].id == id
  {
    if ps != [] {
      var n := |ps| - 1;
      if ps[n].id != id {
        PutSource(ps[..n], id);
        var i :| 0 <= i < n && ps[..n][i] == Put(map[], ps[..n])[id];
        assert ps[i] == Put(map[], ps)[id];
      } else {
        assert ps[n] == Put(map[], ps)[id];
      }
    }
  }

  lemma TouchedOwned(inp: PlanInput)
    requires Found(inp) && OwnersUsable(inp)
    ensures forall key :: key in Touched(inp) ==> key.0 in inp.accounts
  {
    forall key | key in Touched(inp) ensures key.0 in inp.accounts {
      TouchedRequired(inp, key);
    }
  }

  lemma TouchedRequired(inp: PlanInput, key: BalanceKey)
    requires Found(inp) && key in Touched(inp)
    ensures key in BalanceKeys(inp.envelope, inp.consumedPostings)
    ensures key.0 in Owners(inp.envelope, inp.consumedPostings)
  {
    var e := inp.envelope;
    if key in ConsumedKeys(inp, |e.consumes|) {
      var i :| 0 <= i < |e.consumes| && (Rows(inp)[e.consumes[i]].owner, Rows(inp)[e.consumes[i]].asset) == key;
      RowsLoaded(inp, e.consumes[i]);
    }
  }

  ghost predicate FloorsHold(inp: PlanInput)
    requires Found(inp) && OwnersUsable(inp)
  {
    TouchedOwned(inp);
    forall key :: key in Touched(inp) ==> FloorOk(inp, key)
  }

  /** The one rule: an input is accepted exactly when all of this holds. */
  ghost predicate Acceptable(digest: Digest, inp: PlanInput) {
    && NonEmpty(inp)
    && Distinct(inp.envelope.consumes)
    && Found(inp)
    && OwnersUsable(inp)
    && SnapshotsCurrent(digest, inp)
    && BookAdmits(inp)
    && Conserves(inp)
    && NegativesPermitted(inp)
    && DeltasFit(inp)
    && FloorsHold(inp)
  }

  /** The assets the envelope moves. */
  function Referenced(inp: PlanInput): set<AssetId>
    requires Found(inp)
  {
    (set i | 0 <= i < |inp.envelope.consumes| :: Rows(inp)[inp.envelope.consumes[i]].asset)
    + (set i | 0 <= i < |inp.envelope.creates| :: inp.envelope.creates[i].asset)
  }

  /** Each rejection names a rule the input really breaks. */
  ghost predicate Justified(digest: Digest, inp: PlanInput, err: ValidationError) {
    var e := inp.envelope;
    match err
    case EmptyTransfer => e.consumes == [] && e.creates == []
    case DuplicateConsumedPosting(id) =>
      exists i, j :: 0 <= i < j < |e.consumes| && e.consumes[i] == id == e.consumes[j]
    case PostingNotFound(id) => id in e.consumes && id !in Rows(inp)
    case AccountNotFound(a) =>
      a !in inp.accounts && (a in Owners(e, inp.consumedPostings) || a in SnapshotAccounts(e))
    case AccountFrozen(a) =>
      a in Owners(e, inp.consumedPostings) && a in inp.accounts && inp.accounts[a].IsFrozen()
    case AccountClosed(a) =>
      a in Owners(e, inp.consumedPostings) && a in inp.accounts && inp.accounts[a].IsClosed()
    case ConservationViolation(asset, c, d) =>
      c == Consumed(inp, OfAsset(asset), |e.consumes|) != d == Created(inp, OfAsset(asset), |e.creates|)
    case OverdraftExceeded(a, asset, projected) =>
      && Found(inp) && (a, asset) in Touched(inp) && a in inp.accounts && inp.accounts[a].ForbidsOverdraft()
      && projected == BalanceOf(inp, (a, asset)) + NetOf(inp, OfHolder(a, asset)) < 0
    case AccountVersionMismatch(a, expected, actual) =>
      && AccountSnapshotId(a, expected) in e.snapshots && a in inp.accounts
      && actual == AccountHash(digest, inp.accounts[a]) != expected
    case NegativePostingOnNonSystemAccount(a, asset, v) =>
      && v < 0 && a in inp.accounts && inp.accounts[a].ForbidsOverdraft()
      && exists i :: 0 <= i < |e.creates| && e.creates[i].owner == a && e.creates[i].asset == asset && e.creates[i].value == v
    case BookAssetNotAllowed(b, asset) =>
      Found(inp) && asset in Referenced(inp) && inp.book.Some? && inp.book.value.id == b && !AssetAllowed(inp.book.value.policy, asset)
    case BookAccountNotAllowed(b, a) =>
      && inp.book.Some? && inp.book.value.id == b && a in Owners(e, inp.consumedPostings) && a in inp.accounts
      && !AccountAllowed(inp.book.value.policy, a, inp.accounts[a])
    case MonetaryOverflow =>
      !Conserves(inp) || !DeltasFit(inp)
      || (Found(inp) && exists key :: key in Touched(inp) && !Fits(BalanceOf(inp, key) + NetOf(inp, Holding(key))))
  }

  /** Ids a plan gives the postings it creates; the position is cast to 16 bits. */
  function PlannedPosting(tid: EnvelopeId, i: nat, np: NewPosting): Posting {
    Posting(PostingId(tid, i % 0x1_0000), np.owner, np.asset, np.value)
  }

  function PlannedPostings(tid: EnvelopeId, creates: seq<NewPosting>): (r: seq<Posting>)
    ensures |r| == |creates|
  {
    seq(|creates|, i requires 0 <= i < |creates| => PlannedPosting(tid, i, creates[i]))
  }

  /** The ids are pairwise distinct exactly when the 16-bit index does not wrap. */
  lemma PlannedIdsDistinct(tid: EnvelopeId, creates: seq<NewPosting>)
    ensures (forall i, j :: 0 <= i < j < |creates| ==>
              PlannedPostings(tid, creates)[i].id != PlannedPostings(tid, creates)[j].id)
            <==> |creates| <= TWO16
  {
    if |creates| > TWO16 {
      assert PlannedPostings(tid, creates)[0].id == PlannedPostings(tid, creates)[TWO16].id;
    }
  }

  // ----- the checks, in the order the code runs them -----

  method CheckDuplicates(ids: seq<PostingId>) returns (r: Option<PostingId>)
    ensures r.None? <==> Distinct(ids)
    ensures r.Some? ==> exists i, j :: 0 <= i < j < |ids| && ids[i] == r.value == ids[j]
  {
    var seen: set<PostingId> := {};
    for k := 0 to |ids|
      invariant Distinct(ids[..k])
      invariant seen == set i | 0 <= i < k :: ids[i]
    {
      if ids[k] in seen {
        var i :| 0 <= i < k && ids[i] == ids[k];
        return Some(ids[k]);
      }
      seen := seen + {ids[k]};
    }
    assert ids[..|ids|] == ids;
    return None;
  }

  /** The first owner, in account order, that may not take part. */
  ghost predicate FirstUnusable(inp: PlanInput, a: AccountId) {
    var owners := Owners(inp.envelope, inp.consumedPostings);
    && a in owners && !Usable(inp.accounts, a)
    && forall b :: b in owners && (b.id < a.id || (b.id == a.id && b.sub < a.sub)) ==> Usable(inp.accounts, b)
  }

  lemma OwnersBefore(inp: PlanInput, k: nat)
    requires k < |Owners(inp.envelope, inp.consumedPostings)|
    ensures var ids := Owners(inp.envelope, inp.consumedPostings);
      forall b :: b in ids && AccountLess(b, ids[k]) ==> b in ids[..k]
  {
    SortDedupAscending(AccountLess, OwnerWalk(inp.envelope, inp.consumedPostings));
    var ids := Owners(inp.envelope, inp.consumedPostings);
    assert Ascending(AccountLess, ids);
    hide Owners, OwnerWalk;
    forall b | b in ids && AccountLess(b, ids[k]) ensures b in ids[..k] {
      var j :| 0 <= j < |ids| && ids[j] == b;
      assert j < k;
      assert ids[..k][j] == b;
    }
  }

  method CheckOwners(digest: Digest, inp: PlanInput) returns (r: Option<ValidationError>)
    ensures r.None? <==> OwnersUsable(inp)
    ensures r.Some? ==> Justified(digest, inp, r.value)
    ensures r.Some? ==> match r.value
      case AccountNotFound(a) => FirstUnusable(inp, a)
      case AccountFrozen(a) => FirstUnusable(inp, a)
      case AccountClosed(a) => FirstUnusable(inp, a) && a in inp.accounts && !inp.accounts[a].IsFrozen()
      case _ => false
  {
    var ids := Owners(inp.envelope, inp.consumedPostings);
    for k := 0 to |ids|
      invariant forall i :: 0 <= i < k ==> Usable(inp.accounts, ids[i])
    {
      var a := ids[k];
      assert a in ids;
      OwnersBefore(inp, k);
      if a !in inp.accounts { return Some(AccountNotFound(a)); }
      if inp.accounts[a].IsFrozen() { return Some(AccountFrozen(a)); }
      if inp.accounts[a].IsClosed() { return Some(AccountClosed(a)); }
    }
    return None;
  }

  method CheckSnapshots(digest: Digest, inp: PlanInput) returns (r: Option<ValidationError>)
    ensures r.None? <==> SnapshotsCurrent(digest, inp)
    ensures r.Some? ==> Justified(digest, inp, r.value) && (r.value.AccountNotFound? || r.value.AccountVersionMismatch?)
  {
    var snaps := inp.envelope.snapshots;
    for k := 0 to |snaps|
      invariant forall i :: 0 <= i < k ==> Pinned(digest, inp, snaps[i])
    {
      var s := snaps[k];
      if s.account !in inp.accounts {
        assert SnapshotAccounts(inp.envelope)[k] == s.account;
        return Some(AccountNotFound(s.account));
      }
      var actual := AccountHash(digest, inp.accounts[s.account]);
      if s.snapshotId != actual {
        assert AccountSnapshotId(s.account, s.snapshotId) == snaps[k];
        return Some(AccountVersionMismatch(s.account, s.snapshotId, actual));
      }
    }
    return None;
  }

  method CheckBookAssets(inp: PlanInput, policy: BookPolicy) returns (r: Option<AssetId>)
    requires Found(inp)
    ensures r.None? <==>
      && (forall i :: 0 <= i < |inp.envelope.consumes| ==>
            AssetAllowed(policy, Rows(inp)[inp.envelope.consumes[i]].asset))
      && (forall i :: 0 <= i < |inp.envelope.creates| ==> AssetAllowed(policy, inp.envelope.creates[i].asset))
    ensures r.Some? ==> r.value in Referenced(inp) && !AssetAllowed(policy, r.value)
  {
    if policy.allowedAssets == [] { return None; }
    var referenced := Referenced(inp);
    var todo := referenced;
    while todo != {}
      invariant todo <= referenced
      invariant forall a :: a in referenced - todo ==> AssetAllowed(policy, a)
      decreases |todo|
    {
      var asset :| asset in todo;
      if asset !in policy.allowedAssets { return Some(asset); }
      todo := todo - {asset};
    }
    ReferencedAllowed(inp, policy, referenced);
    return None;
  }

  lemma ReferencedAllowed(inp: PlanInput, policy: BookPolicy, referenced: set<AssetId>)
    requires Found(inp) && forall a :: a in referenced ==> AssetAllowed(policy, a)
    requires referenced == Referenced(inp)
    ensures forall i :: 0 <= i < |inp.envelope.consumes| ==> AssetAllowed(policy, Rows(inp)[inp.envelope.consumes[i]].asset)
    ensures forall i :: 0 <= i < |inp.envelope.creates| ==> AssetAllowed(policy, inp.envelope.creates[i].asset)
  {
    hide AssetAllowed;
  }

  method CheckBookAccounts(inp: PlanInput, policy: BookPolicy) returns (r: Option<AccountId>)
    requires OwnersUsable(inp)
    ensures r.None? <==>
      (var owners := Owners(inp.envelope, inp.consumedPostings);
       forall a :: a in owners ==> AccountAllowed(policy, a, inp.accounts[a]))
    ensures r.Some? ==> r.value in Owners(inp.envelope, inp.consumedPostings)
    ensures r.Some? ==> r.value in inp.accounts && !AccountAllowed(policy, r.value, inp.accounts[r.value])
  {
    if policy.allowedAccounts == [] && policy.allowedFlags == 0 { return None; }
    var ids := Owners(inp.envelope, inp.consumedPostings);
    for k := 0 to |ids|
      invariant forall i :: 0 <= i < k ==> ids[i] in inp.accounts && AccountAllowed(policy, ids[i], inp.accounts[ids[i]])
    {
      var a := ids[k];
      assert a in ids;
      var listed := a.Base() in policy.allowedAccounts;
      var flagMatch := policy.allowedFlags != 0 && Intersects(inp.accounts[a].flags, policy.allowedFlags);
      if !(listed || flagMatch) { return Some(a); }
    }
    return None;
  }

  method CheckBook(digest: Digest, inp: PlanInput) returns (r: Option<ValidationError>)
    requires Found(inp) && OwnersUsable(inp)
    ensures r.None? <==> BookAdmits(inp)
    ensures r.Some? ==> Justified(digest, inp, r.value) && (r.value.BookAssetNotAllowed? || r.value.BookAccountNotAllowed?)
  {
    if inp.book.None? { return None; }
    var asset := CheckBookAssets(inp, inp.book.value.policy);
    if asset.Some? { return Some(BookAssetNotAllowed(inp.book.value.id, asset.value)); }
    var account := CheckBookAccounts(inp, inp.book.value.policy);
    if account.Some? { return Some(BookAccountNotAllowed(inp.book.value.id, account.value)); }
    return None;
  }

  lemma ConsumedStep(inp: PlanInput, sl: Slice, k: nat)
    requires k < |inp.envelope.consumes| && inp.envelope.consumes[k] in Rows(inp)
    ensures Consumed(inp, sl, k + 1) == Consumed(inp, sl, k) + Weight(sl, Rows(inp)[inp.envelope.consumes[k]])
  {
    assert inp.envelope.consumes[..k + 1][..k] == inp.envelope.consumes[..k];
  }

  lemma CreatedStep(inp: PlanInput, sl: Slice, k: nat)
    requires k < |inp.envelope.creates|
    ensures Created(inp, sl, k + 1) == Created(inp, sl, k) +
      (var np := inp.envelope.creates[k]; if Covers(sl, np.owner, np.asset) then np.value else 0)
  {
    assert inp.envelope.creates[..k + 1][..k] == inp.envelope.creates[..k];
  }

  function At<K>(m: map<K, Cent>, k: K): Cent { if k in m then m[k] else 0 }

  method SumConsumedByAsset(inp: PlanInput) returns (r: Option<map<AssetId, Cent>>)
    requires Found(inp)
    ensures r.None? <==> exists k, a: AssetId :: 0 <= k <= |inp.envelope.consumes| && !Fits(Consumed(inp, OfAsset(a), k))
    ensures r.Some? ==> forall a: AssetId :: At(r.value, a) == Consumed(inp, OfAsset(a), |inp.envelope.consumes|)
  {
    var e := inp.envelope;
    var sums: map<AssetId, Cent> := map[];
    for k := 0 to |e.consumes|
      invariant forall a: AssetId :: At(sums, a) == Consumed(inp, OfAsset(a), k)
      invariant forall j, a: AssetId :: 0 <= j <= k ==> Fits(Consumed(inp, OfAsset(a), j))
    {
      var p := Rows(inp)[e.consumes[k]];
      forall a: AssetId ensures Consumed(inp, OfAsset(a), k + 1) == At(sums, a) + (if a == p.asset then p.value else 0) {
        ConsumedStep(inp, OfAsset(a), k);
      }
      var sum := Checked(At(sums, p.asset) + p.value);
      if sum.Err? {
        assert !Fits(Consumed(inp, OfAsset(p.asset), k + 1));
        return None;
      }
      sums := sums[p.asset := sum.value];
    }
    return Some(sums);
  }

  method SumCreatedByAsset(inp: PlanInput) returns (r: Option<map<AssetId, Cent>>)
    ensures r.None? <==> exists k, a: AssetId :: 0 <= k <= |inp.envelope.creates| && !Fits(Created(inp, OfAsset(a), k))
    ensures r.Some? ==> forall a: AssetId :: At(r.value, a) == Created(inp, OfAsset(a), |inp.envelope.creates|)
  {
    var e := inp.envelope;
    var sums: map<AssetId, Cent> := map[];
    for k := 0 to |e.creates|
      invariant forall a: AssetId :: At(sums, a) == Created(inp, OfAsset(a), k)
      invariant forall j, a: AssetId :: 0 <= j <= k ==> Fits(Created(inp, OfAsset(a), j))
    {
      var np := e.creates[k];
      forall a: AssetId ensures Created(inp, OfAsset(a), k + 1) == At(sums, a) + (if a == np.asset then np.value else 0) {
        CreatedStep(inp, OfAsset(a), k);
      }
      var sum := Checked(At(sums, np.asset) + np.value);
      if sum.Err? {
        assert !Fits(Created(inp, OfAsset(np.asset), k + 1));
        return None;
      }
      sums := sums[np.asset := sum.value];
    }
    return Some(sums);
  }

  method CheckConservation(digest: Digest, inp: PlanInput) returns (r: Option<ValidationError>)
    requires Found(inp)
    ensures r.None? <==> Conserves(inp)
    ensures r.Some? ==> Justified(digest, inp, r.value) && (r.value.ConservationViolation? || r.value.MonetaryOverflow?)
  {
    var consumed := SumConsumedByAsset(inp);
    if consumed.None? { return Some(MonetaryOverflow); }
    var created := SumCreatedByAsset(inp);
    if created.None? { return Some(MonetaryOverflow); }
    var assets := consumed.value.Keys + created.value.Keys;
    var todo := assets;
    while todo != {}
      invariant todo <= assets
      invariant forall a :: a in assets - todo ==> At(consumed.value, a) == At(created.value, a)
      decreases |todo|
    {
      var asset :| asset in todo;
      var c, d := At(consumed.value, asset), At(created.value, asset);
      if c != d {
        assert NetOf(inp, OfAsset(asset)) != 0;
        return Some(ConservationViolation(asset, c, d));
      }
      todo := todo - {asset};
    }
    forall a: AssetId ensures NetOf(inp, OfAsset(a)) == 0 {
      assert At(consumed.value, a) == At(created.value, a);
    }
    return None;
  }

  method CheckNegatives(digest: Digest, inp: PlanInput) returns (r: Option<ValidationError>)
    ensures r.None? <==> NegativesPermitted(inp)
    ensures r.Some? ==> Justified(digest, inp, r.value)
    ensures r.Some? ==> r.value.NegativePostingOnNonSystemAccount? || !OwnersUsable(inp)
  {
    var creates := inp.envelope.creates;
    for k := 0 to |creates|
      invariant forall i :: 0 <= i < k ==> Permits(inp.accounts, creates[i])
    {
      var np := creates[k];
      if np.value < 0 {
        if np.owner !in inp.accounts {
          assert np.owner in Owners(inp.envelope, inp.consumedPostings);
          return Some(AccountNotFound(np.owner));
        }
        if inp.accounts[np.owner].ForbidsOverdraft() {
          return Some(NegativePostingOnNonSystemAccount(np.owner, np.asset, np.value));
        }
      }
    }
    return None;
  }

  method DebitDeltas(inp: PlanInput) returns (r: Option<map<BalanceKey, Cent>>)
    requires Found(inp)
    ensures r.None? <==> exists k, key: BalanceKey ::
      0 <= k <= |inp.envelope.consumes| && !Fits(-Consumed(inp, Holding(key), k))
    ensures r.Some? ==> r.value.Keys == ConsumedKeys(inp, |inp.envelope.consumes|)
    ensures r.Some? ==> forall key: BalanceKey :: At(r.value, key) == -Consumed(inp, Holding(key), |inp.envelope.consumes|)
  {
    var e := inp.envelope;
    var deltas: map<BalanceKey, Cent> := map[];
    for k := 0 to |e.consumes|
      invariant deltas.Keys == ConsumedKeys(inp, k)
      invariant forall key: BalanceKey :: At(deltas, key) == -Consumed(inp, Holding(key), k)
      invariant forall j, key: BalanceKey :: 0 <= j <= k ==> Fits(-Consumed(inp, Holding(key), j))
    {
      var p := Rows(inp)[e.consumes[k]];
      var touched := (p.owner, p.asset);
      forall key: BalanceKey
        ensures -Consumed(inp, Holding(key), k + 1) == At(deltas, key) - (if key == touched then p.value else 0)
      {
        ConsumedStep(inp, Holding(key), k);
      }
      var d := Checked(At(deltas, touched) - p.value);
      if d.Err? {
        assert !Fits(-Consumed(inp, Holding(touched), k + 1));
        return None;
      }
      deltas := deltas[touched := d.value];
    }
    return Some(deltas);
  }

  method CreditDeltas(inp: PlanInput, debits: map<BalanceKey, Cent>) returns (r: Option<map<BalanceKey, Cent>>)
    requires Found(inp)
    requires debits.Keys == ConsumedKeys(inp, |inp.envelope.consumes|)
    requires forall key: BalanceKey :: At(debits, key) == Running(inp, key, 0)
    ensures r.None? <==> exists k, key: BalanceKey ::
      0 <= k <= |inp.envelope.creates| && !Fits(Running(inp, key, k))
    ensures r.Some? ==> r.value.Keys == Touched(inp)
    ensures r.Some? ==> forall key: BalanceKey :: At(r.value, key) == Running(inp, key, |inp.envelope.creates|)
  {
    var e := inp.envelope;
    var deltas := debits;
    for k := 0 to |e.creates|
      invariant deltas.Keys == debits.Keys + CreatedKeys(inp, k)
      invariant forall key: BalanceKey :: At(deltas, key) == Running(inp, key, k)
      invariant forall j, key: BalanceKey :: 0 <= j <= k ==> Fits(Running(inp, key, j))
    {
      var np := e.creates[k];
      var touched := (np.owner, np.asset);
      forall key: BalanceKey
        ensures Running(inp, key, k + 1) == At(deltas, key) + (if key == touched then np.value else 0)
      {
        CreatedStep(inp, Holding(key), k);
      }
      var d := Checked(At(deltas, touched) + np.value);
      if d.Err? {
        assert !Fits(Running(inp, touched, k + 1));
        return None;
      }
      ghost var before := deltas;
      deltas := deltas[touched := d.value];
      forall key: BalanceKey ensures At(deltas, key) == Running(inp, key, k + 1) {
        assert key != touched ==> At(deltas, key) == At(before, key);
      }
    }
    return Some(deltas);
  }

  method CheckFloors(digest: Digest, inp: PlanInput) returns (r: Option<ValidationError>)
    requires Found(inp) && OwnersUsable(inp)
    ensures r.None? <==> DeltasFit(inp) && FloorsHold(inp)
    ensures r.Some? ==> Justified(digest, inp, r.value) && (r.value.OverdraftExceeded? || r.value.MonetaryOverflow?)
  {
    var debits := DebitDeltas(inp);
    if debits.None? { return Some(MonetaryOverflow); }
    var deltas := CreditDeltas(inp, debits.value);
    if deltas.None? { return Some(MonetaryOverflow); }
    hide DeltasFit;
    r := FindBreach(digest, inp, deltas.value);
  }

  /** The first touched holding whose projected balance breaks its account's floor. */
  method FindBreach(digest: Digest, inp: PlanInput, deltas: map<BalanceKey, Cent>) returns (r: Option<ValidationError>)
    requires Found(inp) && OwnersUsable(inp) && deltas.Keys == Touched(inp)
    requires forall key: BalanceKey :: At(deltas, key) == NetOf(inp, Holding(key))
    ensures r.None? <==> FloorsHold(inp)
    ensures r.Some? ==> Justified(digest, inp, r.value) && (r.value.OverdraftExceeded? || r.value.MonetaryOverflow?)
  {
    TouchedOwned(inp);
    hide Touched, NetOf, Found, OwnersUsable, Justified, BalanceOf;
    var todo := deltas.Keys;
    while todo != {}
      invariant todo <= Touched(inp)
      invariant forall key :: key in Touched(inp) - todo ==> FloorOk(inp, key)
      decreases |todo|
    {
      var key :| key in todo;
      if inp.accounts[key.0].ForbidsOverdraft() {
        var projected := Checked(BalanceOf(inp, key) + deltas[key]);
        assert At(deltas, key) == NetOf(inp, Holding(key));
        if projected.Err? {
          BalanceOverflows(digest, inp, key);
          return Some(MonetaryOverflow);
        }
        if projected.value < 0 {
          FloorBroken(digest, inp, key, projected.value);
          return Some(OverdraftExceeded(key.0, key.1, projected.value));
        }
      }
      todo := todo - {key};
    }
    return None;
  }

  lemma BalanceOverflows(digest: Digest, inp: PlanInput, key: BalanceKey)
    requires Found(inp) && key in Touched(inp) && !Fits(BalanceOf(inp, key) + NetOf(inp, Holding(key)))
    ensures Justified(digest, inp, MonetaryOverflow)
  {
    hide Touched, NetOf, Found, BalanceOf, Conserves, DeltasFit;
  }

  lemma FloorBroken(digest: Digest, inp: PlanInput, key: BalanceKey, projected: Cent)
    requires Found(inp) && key in Touched(inp) && key.0 in inp.accounts && inp.accounts[key.0].ForbidsOverdraft()
    requires projected == BalanceOf(inp, key) + NetOf(inp, Holding(key)) < 0
    ensures Justified(digest, inp, OverdraftExceeded(key.0, key.1, projected))
  {
    hide Touched, NetOf, Found, BalanceOf;
    assert key == (key.0, key.1);
  }

  function PlanOf(digest: Digest, e: Envelope): Plan {
    var tid := EnvelopeIdOf(digest, e);
    Plan(tid, e.consumes, PlannedPostings(tid, e.creates))
  }

  ghost predicate Listed(inp: PlanInput) { NonEmpty(inp) && Distinct(inp.envelope.consumes) && Found(inp) }

  /** The rules are checked in order: those before the one that is named hold, and of the
      owners the first unusable one is named, as frozen before closed. */
  ghost predicate EarlierHold(digest: Digest, inp: PlanInput, err: ValidationError) {
    match err
    case EmptyTransfer => true
    case DuplicateConsumedPosting(_) => NonEmpty(inp)
    case PostingNotFound(_) => NonEmpty(inp) && Distinct(inp.envelope.consumes)
    case AccountNotFound(a) => Listed(inp) && (FirstUnusable(inp, a) || OwnersUsable(inp))
    case AccountFrozen(a) => Listed(inp) && FirstUnusable(inp, a)
    case AccountClosed(a) => Listed(inp) && FirstUnusable(inp, a) && a in inp.accounts && !inp.accounts[a].IsFrozen()
    case AccountVersionMismatch(_, _, _) => Listed(inp) && OwnersUsable(inp)
    case BookAssetNotAllowed(_, _) => ListedAndPinned(digest, inp)
    case BookAccountNotAllowed(_, _) => ListedAndPinned(digest, inp)
    case ConservationViolation(_, _, _) => ListedAndPinned(digest, inp) && BookAdmits(inp)
    case NegativePostingOnNonSystemAccount(_, _, _) => ListedAndPinned(digest, inp) && BookAdmits(inp) && Conserves(inp)
    case OverdraftExceeded(_, _, _) => ListedAndPinned(digest, inp) && BookAdmits(inp) && Conserves(inp) && NegativesPermitted(inp)
    case MonetaryOverflow => ListedAndPinned(digest, inp) && BookAdmits(inp)
  }

  ghost predicate ListedAndPinned(digest: Digest, inp: PlanInput) { Listed(inp) && OwnersUsable(inp) && SnapshotsCurrent(digest, inp) }

  /** Validation accepts exactly the acceptable inputs, whatever order its hash
      maps iterate in; an accepted input yields the one plan its envelope
      determines, and a rejection names the first rule in order that is really broken. */
  method ValidateAndPlan(digest: Digest, inp: PlanInput) returns (r: Result<Plan, ValidationError>)
    ensures r.Ok? <==> Acceptable(digest, inp)
    ensures r.Ok? ==> r.value == PlanOf(digest, inp.envelope)
    ensures r.Err? ==> Justified(digest, inp, r.error) && EarlierHold(digest, inp, r.error)
  {
    var e := inp.envelope;
    if e.consumes == [] && e.creates == [] { return Err(EmptyTransfer); }
    var duplicate := CheckDuplicates(e.consumes);
    if duplicate.Some? { return Err(DuplicateConsumedPosting(duplicate.value)); }
    for k := 0 to |e.consumes|
      invariant forall i :: 0 <= i < k ==> e.consumes[i] in Rows(inp)
    {
      if e.consumes[k] !in Rows(inp) { return Err(PostingNotFound(e.consumes[k])); }
    }
    var err := CheckOwners(digest, inp);
    if err.Some? { return Err(err.value); }
    err := CheckSnapshots(digest, inp);
    if err.Some? { return Err(err.value); }
    err := CheckBook(digest, inp);
    if err.Some? { return Err(err.value); }
    err := CheckConservation(digest, inp);
    if err.Some? { return Err(err.value); }
    err := CheckNegatives(digest, inp);
    if err.Some? { return Err(err.value); }
    err := CheckFloors(digest, inp);
    if err.Some? { return Err(err.value); }
    return Ok(PlanOf(digest, e));
  }

  // ----- completeness of the loader's key set -----

  predicate AgreeOn<K, V(==)>(a: map<K, V>, b: map<K, V>, k: K) {
    (k in a <==> k in b) && (k in a ==> a[k] == b[k])
  }

  /** Two inputs that agree on the keys `required_state` names get the same verdict, and the
      same reasons are open to a rejection: nothing validation reads lies outside what the
      loader fetches. */
  lemma VerdictReadsRequiredState(digest: Digest, a: PlanInput, b: PlanInput)
    requires SameRequired(a, b)
    ensures Acceptable(digest, a) <==> Acceptable(digest, b)
    ensures forall err :: Justified(digest, a, err) <==> Justified(digest, b, err)
  {
    RequiredSymmetric(a, b);
    hide SameRequired;
    VerdictImplied(digest, a, b);
    VerdictImplied(digest, b, a);
    forall err ensures Justified(digest, a, err) <==> Justified(digest, b, err) {
      ReasonImplied(digest, a, b, err);
      ReasonImplied(digest, b, a, err);
    }
  }

  predicate SameRequired(a: PlanInput, b: PlanInput) {
    && a.envelope == b.envelope && a.consumedPostings == b.consumedPostings && a.book == b.book
    && (forall id :: id in Required(a.envelope, a.consumedPostings).accounts ==> AgreeOn(a.accounts, b.accounts, id))
    && (forall key :: key in Required(a.envelope, a.consumedPostings).balances ==> AgreeOn(a.balances, b.balances, key))
  }

  lemma RequiredSymmetric(a: PlanInput, b: PlanInput)
    requires SameRequired(a, b)
    ensures SameRequired(b, a)
  {
    hide Required;
  }

  /** Owners, created owners, snapshot accounts and touched holdings are all required. */
  lemma AgreeWhereRead(a: PlanInput, b: PlanInput)
    requires SameRequired(a, b)
    ensures forall id :: id in Owners(a.envelope, a.consumedPostings) ==> AgreeOn(a.accounts, b.accounts, id)
    ensures forall id :: id in SnapshotAccounts(a.envelope) ==> AgreeOn(a.accounts, b.accounts, id)
    ensures Found(a) ==> forall key :: key in Touched(a) ==> AgreeOn(a.balances, b.balances, key) && AgreeOn(a.accounts, b.accounts, key.0)
  {
    var owners, snaps := Owners(a.envelope, a.consumedPostings), SnapshotAccounts(a.envelope);
    assert forall id :: id in owners || id in snaps ==> id in owners + snaps;
    hide AgreeOn, Owners, SnapshotAccounts;
    if Found(a) {
      forall key | key in Touched(a) ensures AgreeOn(a.balances, b.balances, key) && AgreeOn(a.accounts, b.accounts, key.0) {
        TouchedRequired(a, key);
      }
    }
  }

  lemma ReasonImplied(digest: Digest, a: PlanInput, b: PlanInput, err: ValidationError)
    requires SameRequired(a, b)
    ensures Justified(digest, a, err) ==> Justified(digest, b, err)
  {
    hide Justified, SameRequired;
    if Justified(digest, a, err) {
      match err
      case MonetaryOverflow => OverflowImplied(digest, a, b);
      case OverdraftExceeded(o, asset, projected) => OverdraftImplied(digest, a, b, o, asset, projected);
      case _ => AccountReasons(digest, a, b, err);
    }
  }

  lemma OverflowImplied(digest: Digest, a: PlanInput, b: PlanInput)
    requires SameRequired(a, b) && Justified(digest, a, MonetaryOverflow)
    ensures Justified(digest, b, MonetaryOverflow)
  {
    AgreeWhereRead(a, b);
    SameArithmetic(a, b);
    if Conserves(a) && DeltasFit(a) {
      var key :| key in Touched(a) && !Fits(BalanceOf(a, key) + NetOf(a, Holding(key)));
      hide Conserves, DeltasFit;
      assert key in Touched(b) && BalanceOf(b, key) == BalanceOf(a, key);
    } else {
      SameSumsBack(a, b);
    }
  }

  lemma SameSumsBack(a: PlanInput, b: PlanInput)
    requires a.envelope == b.envelope && a.consumedPostings == b.consumedPostings
    ensures Conserves(b) && DeltasFit(b) ==> Conserves(a) && DeltasFit(a)
  {
    if Conserves(b) && DeltasFit(b) { SameSums(b, a); }
  }

  lemma OverdraftImplied(digest: Digest, a: PlanInput, b: PlanInput, o: AccountId, asset: AssetId, projected: Cent)
    requires SameRequired(a, b) && Justified(digest, a, OverdraftExceeded(o, asset, projected))
    ensures Justified(digest, b, OverdraftExceeded(o, asset, projected))
  {
    AgreeWhereRead(a, b);
    SameArithmetic(a, b);
    hide Owners, SnapshotAccounts, Required, Consumed, Created;
    assert Touched(b) == Touched(a) && NetOf(b, OfHolder(o, asset)) == NetOf(a, OfHolder(o, asset));
    hide Touched, NetOf, Rows, Found;
    assert AgreeOn(a.balances, b.balances, (o, asset)) && AgreeOn(a.accounts, b.accounts, (o, asset).0);
  }

  lemma AccountReasons(digest: Digest, a: PlanInput, b: PlanInput, err: ValidationError)
    requires SameRequired(a, b) && Justified(digest, a, err) && !err.MonetaryOverflow? && !err.OverdraftExceeded?
    ensures Justified(digest, b, err)
  {
    AgreeWhereRead(a, b);
    var e := a.envelope;
    forall i | 0 <= i < |e.snapshots| ensures e.snapshots[i].account in SnapshotAccounts(e) {
      assert SnapshotAccounts(e)[i] == e.snapshots[i].account;
    }
    hide Required, SnapshotAccounts, Touched, Conserves, DeltasFit, AccountAllowed, AssetAllowed, AccountBytes, Consumed, Created, NetOf, BalanceOf;
    if err.NegativePostingOnNonSystemAccount? {
      var i :| 0 <= i < |e.creates| && e.creates[i].owner == err.account && e.creates[i].asset == err.asset && e.creates[i].value == err.value;
      assert e.creates[i].owner in Owners(e, a.consumedPostings);
    } else if err.AccountVersionMismatch? {
      assert AccountSnapshotId(err.account, err.expected) in e.snapshots;
      assert AgreeOn(a.accounts, b.accounts, err.account);
    }
  }

  lemma SameArithmetic(a: PlanInput, b: PlanInput)
    requires a.envelope == b.envelope && a.consumedPostings == b.consumedPostings
    ensures forall sl: Slice, k :: 0 <= k <= |a.envelope.consumes| ==> Consumed(a, sl, k) == Consumed(b, sl, k)
    ensures forall sl: Slice, k :: 0 <= k <= |a.envelope.creates| ==> Created(a, sl, k) == Created(b, sl, k)
    ensures forall sl: Slice :: NetOf(a, sl) == NetOf(b, sl)
    ensures forall key: BalanceKey, k :: 0 <= k <= |a.envelope.creates| ==> Running(a, key, k) == Running(b, key, k)
  {
  }

  lemma SameSums(a: PlanInput, b: PlanInput)
    requires a.envelope == b.envelope && a.consumedPostings == b.consumedPostings
    requires Conserves(a) && DeltasFit(a)
    ensures Conserves(b) && DeltasFit(b)
  {
    SameArithmetic(a, b);
  }

  lemma SameFloors(a: PlanInput, b: PlanInput)
    requires a.envelope == b.envelope && a.consumedPostings == b.consumedPostings
    requires Found(a) && OwnersUsable(a) && OwnersUsable(b) && FloorsHold(a)
    requires forall id :: id in Owners(a.envelope, a.consumedPostings) ==> AgreeOn(a.accounts, b.accounts, id)
    requires forall key :: key in BalanceKeys(a.envelope, a.consumedPostings) ==> AgreeOn(a.balances, b.balances, key)
    ensures Found(b) && FloorsHold(b)
  {
    TouchedOwned(a);
    TouchedOwned(b);
    forall key | key in Touched(b) ensures FloorOk(b, key) {
      TouchedRequired(a, key);
      assert FloorOk(a, key);
      SameArithmetic(a, b);
    }
  }

  lemma VerdictImplied(digest: Digest, a: PlanInput, b: PlanInput)
    requires SameRequired(a, b)
    ensures Acceptable(digest, a) ==> Acceptable(digest, b)
  {
    var e, ps := a.envelope, a.consumedPostings;
    if Acceptable(digest, a) {
      var owners := Owners(e, ps);
      forall id | id in owners ensures AgreeOn(a.accounts, b.accounts, id) {
        assert id in owners + SnapshotAccounts(e);
      }
      forall i | 0 <= i < |e.snapshots| ensures Pinned(digest, b, e.snapshots[i]) {
        assert SnapshotAccounts(e)[i] == e.snapshots[i].account;
        assert e.snapshots[i].account in owners + SnapshotAccounts(e);
        assert AgreeOn(a.accounts, b.accounts, e.snapshots[i].account);
        assert Pinned(digest, a, e.snapshots[i]);
      }
      forall i | 0 <= i < |e.creates| ensures Permits(b.accounts, e.creates[i]) {
        assert e.creates[i].owner in owners && Permits(a.accounts, e.creates[i]);
      }
      SameSums(a, b);
      SameFloors(a, b);
    }
  }

  // ----- what a book admits -----

  /** Bit `k` of a flag word is set. */
  predicate HasBit(x: nat, k: nat) { if k == 0 then x % 2 == 1 else HasBit(x / 2, k - 1) }

  /** The two words have a bit in common. */
  ghost predicate ShareBit(a: nat, b: nat) { exists k: nat :: HasBit(a, k) && HasBit(b, k) }

  lemma {:induction false} SharedBit(a: nat, b: nat)
    ensures Intersects(a, b) <==> ShareBit(a, b)
  {
    if a > 0 && b > 0 {
      SharedBit(a / 2, b / 2);
      BitBelow(a, b);
    } else {
      forall k: nat ensures !HasBit(a, k) || !HasBit(b, k) {
        NoBits(k);
      }
    }
  }

  /** A shared bit is the lowest one or one of the rest. */
  lemma BitBelow(a: nat, b: nat)
    ensures ShareBit(a, b) <==> (a % 2 == 1 && b % 2 == 1) || ShareBit(a / 2, b / 2)
  {
    LowestBit(a);
    LowestBit(b);
    hide HasBit;
    if a % 2 == 1 && b % 2 == 1 { assert HasBit(a, 0) && HasBit(b, 0); }
    if k: nat :| HasBit(a / 2, k) && HasBit(b / 2, k) {
      NextBit(a, k);
      NextBit(b, k);
      assert HasBit(a, k + 1) && HasBit(b, k + 1);
    }
    if k: nat :| HasBit(a, k) && HasBit(b, k) {
      if k > 0 {
        NextBit(a, k - 1);
        NextBit(b, k - 1);
        assert HasBit(a / 2, k - 1) && HasBit(b / 2, k - 1);
      }
    }
  }

  lemma LowestBit(x: nat)
    ensures HasBit(x, 0) <==> x % 2 == 1
  {
  }

  lemma NextBit(x: nat, k: nat)
    ensures HasBit(x, k + 1) == HasBit(x / 2, k)
  {
  }

  lemma {:induction false} NoBits(k: nat)
    ensures !HasBit(0, k)
  {
    if k > 0 { NoBits(k - 1); }
  }

  /** The asset is moved: created, or consumed from a loaded row. */
  ghost predicate MovesAsset(inp: PlanInput, x: AssetId) {
    || (exists i :: 0 <= i < |inp.envelope.creates| && inp.envelope.creates[i].asset == x)
    || (exists id :: id in inp.envelope.consumes && id in Rows(inp) && Rows(inp)[id].asset == x)
  }

  /** The account owns a created or a loaded consumed posting. */
  ghost predicate OwnsSome(inp: PlanInput, a: AccountId) {
    || (exists i :: 0 <= i < |inp.envelope.creates| && inp.envelope.creates[i].owner == a)
    || (exists p :: p in inp.consumedPostings && p.owner == a)
  }

  /** Every rule but the book's. */
  ghost predicate OtherwiseAcceptable(digest: Digest, inp: PlanInput) {
    Acceptable(digest, inp.(book := None))
  }

  /** With every other rule met, an input with a book is accepted exactly when every moved
      asset is listed, unless no asset is, and every owner has its base account listed or
      shares a flag with the book, unless neither accounts nor flags are. */
  lemma BookDecides(digest: Digest, inp: PlanInput)
    requires OtherwiseAcceptable(digest, inp) && inp.book.Some?
    ensures var p := inp.book.value.policy;
      Acceptable(digest, inp) <==>
        && (p.allowedAssets == [] || forall x :: MovesAsset(inp, x) ==> x in p.allowedAssets)
        && ((p.allowedAccounts == [] && p.allowedFlags == 0)
            || forall i, j :: OwnsSome(inp, AccountId(i, j)) ==>
                 AccountId(i, 0) in p.allowedAccounts || SharesFlag(inp, AccountId(i, j)))
  {
    var p := inp.book.value.policy;
    SameBut(digest, inp);
    hide Acceptable;
    AssetsDecide(inp);
    AccountsDecide(inp);
  }

  ghost predicate SharesFlag(inp: PlanInput, a: AccountId) {
    && inp.book.Some? && a in inp.accounts
    && ShareBit(inp.accounts[a].flags, inp.book.value.policy.allowedFlags)
  }

  lemma SameBut(digest: Digest, inp: PlanInput)
    requires OtherwiseAcceptable(digest, inp)
    ensures Found(inp) && OwnersUsable(inp) && (Acceptable(digest, inp) <==> BookAdmits(inp))
  {
    var bare := inp.(book := None);
    SameArithmetic(inp, bare);
    assert Conserves(inp) && DeltasFit(inp) by { SameSums(bare, inp); }
    assert Found(inp) && OwnersUsable(inp);
    FloorsWithout(inp);
    forall i | 0 <= i < |inp.envelope.snapshots| ensures Pinned(digest, inp, inp.envelope.snapshots[i]) {
      assert Pinned(digest, bare, inp.envelope.snapshots[i]);
    }
    hide Conserves, DeltasFit, Found, OwnersUsable, FloorsHold, BookAdmits;
  }

  lemma FloorsWithout(inp: PlanInput)
    requires Found(inp) && OwnersUsable(inp) && Found(inp.(book := None)) && OwnersUsable(inp.(book := None)) && FloorsHold(inp.(book := None))
    ensures FloorsHold(inp)
  {
    var bare := inp.(book := None);
    TouchedOwned(inp);
    TouchedOwned(bare);
    SameArithmetic(inp, bare);
    forall key | key in Touched(inp) ensures FloorOk(inp, key) {
      assert FloorOk(bare, key);
    }
  }

  lemma AssetsDecide(inp: PlanInput)
    requires Found(inp) && inp.book.Some?
    ensures var p := inp.book.value.policy;
      ((forall i :: 0 <= i < |inp.envelope.consumes| ==> AssetAllowed(p, Rows(inp)[inp.envelope.consumes[i]].asset))
       && (forall i :: 0 <= i < |inp.envelope.creates| ==> AssetAllowed(p, inp.envelope.creates[i].asset)))
      <==> (p.allowedAssets == [] || forall x :: MovesAsset(inp, x) ==> x in p.allowedAssets)
  {
    hide Rows;
    var p, e := inp.book.value.policy, inp.envelope;
    if p.allowedAssets != [] {
      if forall x :: MovesAsset(inp, x) ==> x in p.allowedAssets {
        forall i | 0 <= i < |e.consumes| ensures AssetAllowed(p, Rows(inp)[e.consumes[i]].asset) {
          assert e.consumes[i] in e.consumes;
          assert MovesAsset(inp, Rows(inp)[e.consumes[i]].asset);
        }
        forall i | 0 <= i < |e.creates| ensures AssetAllowed(p, e.creates[i].asset) {
          assert MovesAsset(inp, e.creates[i].asset);
        }
      }
    }
  }

  lemma AccountsDecide(inp: PlanInput)
    requires OwnersUsable(inp) && inp.book.Some?
    ensures var p := inp.book.value.policy;
      (var owners := Owners(inp.envelope, inp.consumedPostings); forall a :: a in owners ==> AccountAllowed(p, a, inp.accounts[a]))
      <==> ((p.allowedAccounts == [] && p.allowedFlags == 0)
            || forall i, j :: OwnsSome(inp, AccountId(i, j)) ==> AccountId(i, 0) in p.allowedAccounts || SharesFlag(inp, AccountId(i, j)))
  {
    var p, owners := inp.book.value.policy, Owners(inp.envelope, inp.consumedPostings);
    forall a ensures a in owners <==> OwnsSome(inp, a) {
      OwnerOwns(inp, a);
    }
    hide Owners, OwnsSome;
    forall a | a in owners
      ensures AccountAllowed(p, a, inp.accounts[a]) <==>
        (p.allowedAccounts == [] && p.allowedFlags == 0) || AccountId(a.id, 0) in p.allowedAccounts || SharesFlag(inp, a)
    {
      AccountDecides(inp, a);
    }
    hide AccountAllowed, SharesFlag;
    assert forall a: AccountId :: a == AccountId(a.id, a.sub);
  }

  lemma AccountDecides(inp: PlanInput, a: AccountId)
    requires a in inp.accounts && inp.book.Some?
    ensures var p := inp.book.value.policy;
      AccountAllowed(p, a, inp.accounts[a]) <==>
        (p.allowedAccounts == [] && p.allowedFlags == 0) || AccountId(a.id, 0) in p.allowedAccounts || SharesFlag(inp, a)
  {
    SharedBit(inp.accounts[a].flags, inp.book.value.policy.allowedFlags);
    hide ShareBit, Intersects;
    assert a.Base() == AccountId(a.id, 0);
  }

  lemma OwnerOwns(inp: PlanInput, a: AccountId)
    ensures a in Owners(inp.envelope, inp.consumedPostings) <==> OwnsSome(inp, a)
  {
    var e, ps := inp.envelope, inp.consumedPostings;
    var owners := Owners(e, ps);
    hide Owners;
    assert a in owners <== OwnsSome(inp, a) by {
      if p :| p in ps && p.owner == a {
        var i :| 0 <= i < |ps| && ps[i] == p;
      }
    }
    if a in owners && !(exists i :: 0 <= i < |e.creates| && e.creates[i].owner == a) {
      var i :| 0 <= i < |ps| && ps[i].owner == a;
      assert ps[i] in ps;
    }
  }
}

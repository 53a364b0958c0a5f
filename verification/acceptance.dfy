/** The acceptance rule of `validate_and_plan` in the ledger's own terms: flag bits, digests of
    accounts, sums over the postings (crates/kuatia-core/src/validate.rs). */
module Acceptance {
  import opened Wrappers
  import opened Domain
  import opened Amounts
  import opened Canonical
  import opened Validate
  import opened Runs
  import opened StoreLaws

  const MAX: int := 0x7FFF_FFFF_FFFF_FFFF

  predicate Within(x: int) { -MAX - 1 <= x <= MAX }

  /** The account is registered and neither frozen nor closed. */
  ghost predicate Open(inp: PlanInput, a: AccountId) {
    a in inp.accounts && !HasBit(inp.accounts[a].flags, 0) && !HasBit(inp.accounts[a].flags, 1)
  }

  ghost predicate MayNotGoNegative(inp: PlanInput, a: AccountId) { a in inp.accounts && HasBit(inp.accounts[a].flags, 3) }

  /** What the envelope creates less what it consumes, up to `k` creates and `j` consumes. */
  ghost function Gain(inp: PlanInput, sl: Slice, k: nat, j: nat): int
    requires k <= |inp.envelope.creates| && j <= |inp.envelope.consumes|
  {
    SumNew(sl, inp.envelope.creates[..k]) - SumIds(sl, Rows(inp), inp.envelope.consumes[..j])
  }

  /** Each sum over one asset fits, and what is created is what is consumed. */
  ghost predicate Balanced(inp: PlanInput) { forall x: AssetId :: AssetBalanced(inp, x) }

  /** Each holder's change fits, first as its postings are consumed, then as they are created. */
  ghost predicate ChangesFit(inp: PlanInput) { forall a: AccountId, x: AssetId :: ChangeFits(inp, a, x) }

  ghost predicate Moves(inp: PlanInput, a: AccountId, x: AssetId) {
    || (exists i :: 0 <= i < |inp.envelope.creates| && inp.envelope.creates[i].owner == a && inp.envelope.creates[i].asset == x)
    || (exists i :: 0 <= i < |inp.envelope.consumes| && HasRow(inp, inp.envelope.consumes[i], a, x))
  }

  ghost predicate HasRow(inp: PlanInput, id: PostingId, a: AccountId, x: AssetId) {
    id in Rows(inp) && Rows(inp)[id].owner == a && Rows(inp)[id].asset == x
  }

  /** Where overdraft is forbidden, the balance that results is between zero and the largest
      amount; a balance that was not loaded is zero. */
  ghost predicate FloorsKept(inp: PlanInput) {
    forall a: AccountId, x: AssetId :: Moves(inp, a, x) && MayNotGoNegative(inp, a) ==>
      0 <= Loaded(inp, a, x) + Gain(inp, OfHolder(a, x), |inp.envelope.creates|, |inp.envelope.consumes|) <= MAX
  }

  ghost function Loaded(inp: PlanInput, a: AccountId, x: AssetId): int {
    if (a, x) in inp.balances then inp.balances[(a, x)] else 0
  }

  ghost predicate BookListed(inp: PlanInput) {
    inp.book.None? ||
    var p := inp.book.value.policy;
    && (p.allowedAssets == [] || forall x :: MovesAsset(inp, x) ==> x in p.allowedAssets)
    && ((p.allowedAccounts == [] && p.allowedFlags == 0)
        || forall i, j :: OwnsSome(inp, AccountId(i, j)) ==> AccountId(i, 0) in p.allowedAccounts || SharesFlag(inp, AccountId(i, j)))
  }

  ghost predicate PinsCurrent(digest: Digest, inp: PlanInput) {
    forall s :: s in inp.envelope.snapshots ==> s.account in inp.accounts && digest(AccountBytes(inp.accounts[s.account])) == s.snapshotId
  }

  ghost predicate Signed(inp: PlanInput) {
    forall np :: np in inp.envelope.creates && MayNotGoNegative(inp, np.owner) ==> np.value >= 0
  }

  /** An input is accepted exactly when it moves something, no posting twice and only loaded
      ones, between open accounts, as its snapshots pinned them and its book admits; creates
      what it consumes; creates no negative posting and leaves no negative balance where
      overdraft is forbidden; and no sum overflows. */
  lemma AcceptedExactly(digest: Digest, inp: PlanInput)
    ensures Acceptable(digest, inp) <==>
      && (inp.envelope.consumes != [] || inp.envelope.creates != [])
      && Distinct(inp.envelope.consumes)
      && (forall id :: id in inp.envelope.consumes ==> exists p :: p in inp.consumedPostings && p.id == id)
      && (forall a :: OwnsSome(inp, a) ==> Open(inp, a))
      && PinsCurrent(digest, inp) && BookListed(inp)
      && Balanced(inp) && ChangesFit(inp)
      && Signed(inp) && FloorsKept(inp)
  {
    FoundLoaded(inp);
    UsableOpen(inp);
    PinnedCurrent(digest, inp);
    BalancedConserves(inp);
    FitConserves(inp);
    if OwnersUsable(inp) { SignedPermitted(inp); }
    if Found(inp) && OwnersUsable(inp) {
      KeptHold(inp);
      if inp.book.Some? {
        AssetsDecide(inp);
        AccountsDecide(inp);
      }
      ListedAdmits(inp);
    }
    hide Found, OwnersUsable, SnapshotsCurrent, BookAdmits, Conserves, DeltasFit, FloorsHold, NegativesPermitted;
    hide OwnsSome, Open, PinsCurrent, BookListed, Balanced, ChangesFit, Signed, FloorsKept;
  }

  lemma {:induction false} LoadedRow(ps: seq<Posting>, id: PostingId)
    ensures id in Put(map[], ps) <==> exists p :: p in ps && p.id == id
  {
    if ps != [] {
      var front, last := ps[..|ps| - 1], ps[|ps| - 1];
      LoadedRow(front, id);
      assert ps == front + [last];
      assert forall p :: p in ps <==> p in front || p == last;
    }
  }

  lemma FoundLoaded(inp: PlanInput)
    ensures Found(inp) <==> forall id :: id in inp.envelope.consumes ==> exists p :: p in inp.consumedPostings && p.id == id
  {
    forall id ensures id in Rows(inp) <==> exists p :: p in inp.consumedPostings && p.id == id {
      LoadedRow(inp.consumedPostings, id);
    }
    hide Rows;
    var ids := inp.envelope.consumes;
    if Found(inp) {
      forall id | id in ids ensures exists p :: p in inp.consumedPostings && p.id == id {
        var i :| 0 <= i < |ids| && ids[i] == id;
      }
    } else {
      var i :| 0 <= i < |ids| && ids[i] !in Rows(inp);
      assert ids[i] in ids;
    }
  }

  lemma UsableOpen(inp: PlanInput)
    ensures OwnersUsable(inp) <==> forall a :: OwnsSome(inp, a) ==> Open(inp, a)
  {
    forall a ensures a in Owners(inp.envelope, inp.consumedPostings) <==> OwnsSome(inp, a) { OwnerOwns(inp, a); }
    hide Owners, OwnsSome;
    forall a | a in inp.accounts ensures Usable(inp.accounts, a) <==> Open(inp, a) { FlagBits(inp.accounts[a]); }
    hide HasBit;
  }

  lemma PinnedCurrent(digest: Digest, inp: PlanInput)
    ensures SnapshotsCurrent(digest, inp) <==> PinsCurrent(digest, inp)
  {
    hide AccountBytes;
    var ss := inp.envelope.snapshots;
    if SnapshotsCurrent(digest, inp) {
      forall s | s in ss ensures Pinned(digest, inp, s) {
        var i :| 0 <= i < |ss| && ss[i] == s;
      }
    } else {
      var i :| 0 <= i < |ss| && !Pinned(digest, inp, ss[i]);
      assert ss[i] in ss;
    }
  }

  lemma GainParts(inp: PlanInput, sl: Slice, k: nat, j: nat)
    requires k <= |inp.envelope.creates| && j <= |inp.envelope.consumes|
    ensures Gain(inp, sl, k, j) == Created(inp, sl, k) - Consumed(inp, sl, j)
    ensures Created(inp, sl, 0) == 0 && Consumed(inp, sl, 0) == 0
  {
  }

  lemma BalancedConserves(inp: PlanInput)
    ensures Conserves(inp) <==> Balanced(inp)
  {
    forall x: AssetId ensures AssetBalanced(inp, x) <==> AssetConserves(inp, x) { OneAsset(inp, x); }
    hide Gain, Created, Consumed;
    assert Conserves(inp) <==> forall x: AssetId :: AssetConserves(inp, x) by { ByAsset(inp); }
  }

  ghost predicate AssetBalanced(inp: PlanInput, x: AssetId) {
    var n, m := |inp.envelope.creates|, |inp.envelope.consumes|;
    && (forall k :: 0 <= k <= n ==> Within(Gain(inp, OfAsset(x), k, 0)))
    && (forall j :: 0 <= j <= m ==> Within(-Gain(inp, OfAsset(x), 0, j)))
    && Gain(inp, OfAsset(x), n, m) == 0
  }

  ghost predicate AssetConserves(inp: PlanInput, x: AssetId) {
    && (forall k :: 0 <= k <= |inp.envelope.consumes| ==> Fits(Consumed(inp, OfAsset(x), k)))
    && (forall k :: 0 <= k <= |inp.envelope.creates| ==> Fits(Created(inp, OfAsset(x), k)))
    && NetOf(inp, OfAsset(x)) == 0
  }

  lemma ByAsset(inp: PlanInput)
    ensures Conserves(inp) <==> forall x: AssetId :: AssetConserves(inp, x)
  {
    hide Created, Consumed, NetOf;
    if forall x: AssetId :: AssetConserves(inp, x) {
      forall x: AssetId
        ensures (forall k :: 0 <= k <= |inp.envelope.consumes| ==> Fits(Consumed(inp, OfAsset(x), k)))
        ensures (forall k :: 0 <= k <= |inp.envelope.creates| ==> Fits(Created(inp, OfAsset(x), k)))
        ensures NetOf(inp, OfAsset(x)) == 0
      {
        assert AssetConserves(inp, x);
      }
    }
  }

  lemma OneAsset(inp: PlanInput, x: AssetId)
    ensures AssetBalanced(inp, x) <==> AssetConserves(inp, x)
  {
    var n, m := |inp.envelope.creates|, |inp.envelope.consumes|;
    GainParts(inp, OfAsset(x), n, m);
    forall k | 0 <= k <= n ensures Gain(inp, OfAsset(x), k, 0) == Created(inp, OfAsset(x), k) { GainParts(inp, OfAsset(x), k, 0); }
    forall j | 0 <= j <= m ensures Gain(inp, OfAsset(x), 0, j) == -Consumed(inp, OfAsset(x), j) { GainParts(inp, OfAsset(x), 0, j); }
    hide Gain, Created, Consumed;
  }

  lemma FitConserves(inp: PlanInput)
    ensures DeltasFit(inp) <==> ChangesFit(inp)
  {
    forall a: AccountId, x: AssetId ensures HolderFits(inp, (a, x)) <==> ChangeFits(inp, a, x) { OneHolder(inp, a, x); }
    hide Gain, Created, Consumed;
    assert DeltasFit(inp) <==> forall key: BalanceKey :: HolderFits(inp, key) by { ByHolder(inp); }
    if forall a: AccountId, x: AssetId :: ChangeFits(inp, a, x) {
      forall key: BalanceKey ensures HolderFits(inp, key) {
        assert key == (key.0, key.1) && ChangeFits(inp, key.0, key.1);
      }
    }
  }

  ghost predicate ChangeFits(inp: PlanInput, a: AccountId, x: AssetId) {
    var n, m := |inp.envelope.creates|, |inp.envelope.consumes|;
    && (forall j :: 0 <= j <= m ==> Within(Gain(inp, OfHolder(a, x), 0, j)))
    && (forall k :: 0 <= k <= n ==> Within(Gain(inp, OfHolder(a, x), k, m)))
  }

  ghost predicate HolderFits(inp: PlanInput, key: BalanceKey) {
    && (forall k :: 0 <= k <= |inp.envelope.consumes| ==> Fits(-Consumed(inp, Holding(key), k)))
    && (forall k :: 0 <= k <= |inp.envelope.creates| ==> Fits(Running(inp, key, k)))
  }

  lemma ByHolder(inp: PlanInput)
    ensures DeltasFit(inp) <==> forall key: BalanceKey :: HolderFits(inp, key)
  {
    hide Running, Consumed, Holding;
    if forall key: BalanceKey :: HolderFits(inp, key) {
      forall k, key: BalanceKey | 0 <= k <= |inp.envelope.consumes| ensures Fits(-Consumed(inp, Holding(key), k)) {
        assert HolderFits(inp, key);
      }
      forall k, key: BalanceKey | 0 <= k <= |inp.envelope.creates| ensures Fits(Running(inp, key, k)) {
        assert HolderFits(inp, key);
      }
    }
  }

  lemma OneHolder(inp: PlanInput, a: AccountId, x: AssetId)
    ensures HolderFits(inp, (a, x)) <==> ChangeFits(inp, a, x)
  {
    var n, m, sl := |inp.envelope.creates|, |inp.envelope.consumes|, OfHolder(a, x);
    var key: BalanceKey := (a, x);
    assert Holding(key) == sl;
    forall j | 0 <= j <= m ensures Gain(inp, sl, 0, j) == -Consumed(inp, sl, j) { GainParts(inp, sl, 0, j); }
    forall k | 0 <= k <= n ensures Gain(inp, sl, k, m) == Running(inp, key, k) { GainParts(inp, sl, k, m); }
    hide Gain, Created, Consumed, Running, Holding;
  }

  lemma SignedPermitted(inp: PlanInput)
    requires OwnersUsable(inp)
    ensures NegativesPermitted(inp) <==> Signed(inp)
  {
    var cs := inp.envelope.creates;
    forall a | a in inp.accounts ensures inp.accounts[a].ForbidsOverdraft() <==> MayNotGoNegative(inp, a) { FlagBits(inp.accounts[a]); }
    forall i | 0 <= i < |cs| ensures cs[i].owner in inp.accounts {
      assert cs[i].owner in Owners(inp.envelope, inp.consumedPostings);
    }
    hide HasBit, Owners, MayNotGoNegative;
    if NegativesPermitted(inp) {
      forall np | np in cs && MayNotGoNegative(inp, np.owner) ensures np.value >= 0 {
        var i :| 0 <= i < |cs| && cs[i] == np;
        assert Permits(inp.accounts, cs[i]);
      }
    }
    if Signed(inp) {
      forall i | 0 <= i < |cs| ensures Permits(inp.accounts, cs[i]) {
        assert cs[i] in cs;
      }
    }
  }

  lemma TouchedMoves(inp: PlanInput, a: AccountId, x: AssetId)
    requires Found(inp)
    ensures (a, x) in Touched(inp) <==> Moves(inp, a, x)
  {
    hide Rows;
  }

  lemma KeptHold(inp: PlanInput)
    requires Found(inp) && OwnersUsable(inp)
    ensures FloorsHold(inp) <==> FloorsKept(inp)
  {
    TouchedOwned(inp);
    forall a: AccountId, x: AssetId ensures (a, x) in Touched(inp) <==> Moves(inp, a, x) { TouchedMoves(inp, a, x); }
    forall a | a in inp.accounts ensures inp.accounts[a].ForbidsOverdraft() <==> MayNotGoNegative(inp, a) { FlagBits(inp.accounts[a]); }
    forall a: AccountId, x: AssetId ensures NetOf(inp, OfHolder(a, x)) == Gain(inp, OfHolder(a, x), |inp.envelope.creates|, |inp.envelope.consumes|) {
      GainParts(inp, OfHolder(a, x), |inp.envelope.creates|, |inp.envelope.consumes|);
    }
    hide HasBit, Touched, Moves, Gain, NetOf, OwnersUsable, Found, MayNotGoNegative;
    if FloorsKept(inp) {
      forall key | key in Touched(inp) ensures FloorOk(inp, key) {
        assert Moves(inp, key.0, key.1);
      }
    }
    if FloorsHold(inp) {
      forall a: AccountId, x: AssetId | Moves(inp, a, x) && MayNotGoNegative(inp, a)
        ensures 0 <= Loaded(inp, a, x) + Gain(inp, OfHolder(a, x), |inp.envelope.creates|, |inp.envelope.consumes|) <= MAX
      {
        assert FloorOk(inp, (a, x));
      }
    }
  }

  lemma ListedAdmits(inp: PlanInput)
    requires Found(inp) && OwnersUsable(inp)
    ensures BookAdmits(inp) <==> BookListed(inp)
  {
    if inp.book.Some? {
      AssetsDecide(inp);
      AccountsDecide(inp);
    }
    hide Found, OwnersUsable, MovesAsset, OwnsSome, SharesFlag, AssetAllowed, AccountAllowed;
  }
}

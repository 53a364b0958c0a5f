/** The transfers `authorize`, `confirm`, `confirm_all` and `void` commit, and what they do
    to a hold (crates/kuatia/src/inflight.rs). */
module InflightOps {
  import opened Wrappers
  import opened Domain
  import opened Amounts
  import opened Store
  import opened Canonical
  import opened Validate
  import opened Runs
  import opened RunProofs
  import opened Resolution
  import opened LedgerOps
  import opened Intents
  import opened Inflight
  import opened InflightTheorems
  import opened LedgerTheorems
  import Balance

  // ----- the transfers -----

  datatype Settlement = Settlement(
    book: BookId, inflight: EnvelopeId, hold: AccountId, target: AccountId, destination: AccountId,
    asset: AssetId, amount: Cent, role: Role)

  /** `settle`: a tagged payment out of the hold. */
  function SettleTransfer(codec: Codec, st: Settlement): Transfer {
    var meta := match st.role
      case Confirming => Confirm(st.inflight, st.destination)
      case Voiding => Void(st.inflight, st.destination);
    Transfer([Movement(st.hold, st.target, st.asset, st.amount)], st.book, codec.tag([], meta))
  }

  /** The hold of a destination: the destination's id under the trade's subaccount. */
  function HoldOf(sub: i64, destination: AccountId): AccountId { AccountId(destination.id, sub) }

  function LegOf(sub: i64, m: Movement): Leg { Leg(m.to, HoldOf(sub, m.to), m.from, m.asset, m.amount) }

  function LegTable(sub: i64, t: Transfer): (legs: seq<Leg>)
    ensures |legs| == |t.movements| && forall i :: 0 <= i < |legs| ==> legs[i] == LegOf(sub, t.movements[i])
  {
    seq(|t.movements|, i requires 0 <= i < |t.movements| => LegOf(sub, t.movements[i]))
  }

  /** Every movement rewritten into its destination's hold, tagged with the leg table. */
  function Rewritten(codec: Codec, sub: i64, t: Transfer): (r: Transfer)
    ensures |r.movements| == |t.movements|
  {
    Transfer(
      seq(|t.movements|, i requires 0 <= i < |t.movements| =>
        var m := t.movements[i]; Movement(m.from, HoldOf(sub, m.to), m.asset, m.amount)),
      t.book, codec.tag(t.metadata, Authorize(LegTable(sub, t))))
  }

  /** Rewriting the destinations debits the same holdings. */
  lemma {:induction false} SameDebits(ms: seq<Movement>, ns: seq<Movement>, k: Key)
    requires |ns| == |ms| && forall i :: 0 <= i < |ms| ==> Source(ns[i]) == Source(ms[i]) && ns[i].amount == ms[i].amount
    ensures NetDebit(ns, k) == NetDebit(ms, k)
  {
    if ms != [] {
      SameDebits(ms[..|ms| - 1], ns[..|ms| - 1], k);
    }
  }

  lemma RewrittenSmall(codec: Codec, sub: i64, t: Transfer)
    requires Small(t)
    ensures Small(Rewritten(codec, sub, t))
  {
    var ms, ns := t.movements, Rewritten(codec, sub, t).movements;
    forall k ensures NetDebit(ns, k) == NetDebit(ms, k) {
      SameDebits(ms, ns, k);
    }
    hide NetDebit;
    forall k ensures k in Payers(ns) <==> k in Payers(ms) {
      assert forall i :: 0 <= i < |ms| ==> Source(ns[i]) == Source(ms[i]);
      if k in Payers(ms) {
        var i :| 0 <= i < |ms| && Source(ms[i]) == k;
        assert Source(ns[i]) == k;
      }
    }
    assert Payers(ns) == Payers(ms);
  }

  // ----- a settlement has the settling shape -----

  lemma OneDebit(m: Movement, k: Key)
    ensures NetDebit([m], k) == if Source(m) == k then m.amount else 0
  {
    assert [m][..0] == [];
    assert NetDebit([m], k) == NetDebit([m][..0], k) + (if Source(m) == k then m.amount else 0);
  }

  /** The parts of a resolved envelope that matter here. */
  ghost predicate CreditsFirst(t: Transfer, e: Envelope) {
    && |t.movements| <= |e.creates| && e.metadata == t.metadata
    && forall i :: 0 <= i < |t.movements| ==> e.creates[i] == Credit(t.movements[i])
  }

  lemma ResolvedParts(digest: Digest, s: State, t: Transfer, e: Envelope)
    requires TablesOk(s) && ResolvesTo(digest, s, t, e)
    ensures CreditsFirst(t, e) && OnlyDebited(s.immutable, t, e)
  {
    hide TablesOk, ResolvesTo, OnlyDebited, SumNew, SumIds;
    ResolvedOnlyDebits(digest, s, t, e);
    ResolvedRealises(digest, s, t, e);
  }

  /** The target is credited first; all else is the hold's, and the amount is then positive. */
  ghost predicate PaysOut(codec: Codec, rows: map<PostingId, Posting>, st: Settlement, e: Envelope) {
    && e.metadata == SettleTransfer(codec, st).metadata
    && |e.creates| >= 1 && e.creates[0].owner == st.target && e.creates[0].value == st.amount
    && (forall id :: id in e.consumes ==> id in rows && rows[id].owner == st.hold && st.amount > 0)
    && (forall i :: 1 <= i < |e.creates| ==> IsChange(st, e.creates[i]))
  }

  /** Given back to the hold, out of a positive amount. */
  predicate IsChange(st: Settlement, np: NewPosting) { np.owner == st.hold && st.amount > 0 }

  /** Only the hold is debited, and only of a positive amount. */
  lemma SettledDebits(codec: Codec, st: Settlement, key: Key)
    ensures NetDebit(SettleTransfer(codec, st).movements, key) > 0 ==> key.account == st.hold && st.amount > 0
  {
    OneDebit(Movement(st.hold, st.target, st.asset, st.amount), key);
  }

  lemma SettledFacts(codec: Codec, rows: map<PostingId, Posting>, st: Settlement, e: Envelope)
    requires CreditsFirst(SettleTransfer(codec, st), e) && OnlyDebited(rows, SettleTransfer(codec, st), e)
    ensures PaysOut(codec, rows, st, e)
  {
    hide NetDebit;
    var t := SettleTransfer(codec, st);
    assert |t.movements| == 1 && e.creates[0] == Credit(t.movements[0]);
    forall id | id in e.consumes ensures id in rows && rows[id].owner == st.hold && st.amount > 0 {
      SettledDebits(codec, st, Key(rows[id].owner, rows[id].asset));
    }
    forall i | 1 <= i < |e.creates| ensures IsChange(st, e.creates[i]) {
      SettledDebits(codec, st, Key(e.creates[i].owner, e.creates[i].asset));
    }
  }

  /** It touches its own hold in the settling shape, and no other account but its target. */
  lemma SettlementShaped(k: Parked, digest: Digest, s: State, st: Settlement, e: Envelope)
    requires TablesOk(s) && k.codec.Faithful() && ResolvesTo(digest, s, SettleTransfer(k.codec, st), e)
    requires st.target != k.h && EnvelopeIdOf(digest, e) != k.inflight
    ensures Shaped(k, s.immutable, EnvelopeIdOf(digest, e), e)
  {
    hide TablesOk, ResolvesTo, OnlyDebited, EnvelopeIdOf, Touches, SettleShaped, AuthorizeShaped, PaysOut, CreditsFirst;
    ResolvedParts(digest, s, SettleTransfer(k.codec, st), e);
    SettledFacts(k.codec, s.immutable, st, e);
    if Touches(s.immutable, e, k.h) {
      SettledTouch(k, s.immutable, st, e);
    }
  }

  lemma SettledTouch(k: Parked, rows: map<PostingId, Posting>, st: Settlement, e: Envelope)
    requires k.codec.Faithful() && st.target != k.h && Touches(rows, e, k.h)
    requires PaysOut(k.codec, rows, st, e)
    ensures SettleShaped(k.codec, rows, k.h, e)
  {
    assert forall i :: 0 <= i < |e.consumes| ==> e.consumes[i] in e.consumes;
    assert st.hold == k.h && st.amount > 0;
  }

  // ----- an authorization has the authorizing shape -----

  lemma {:induction false} CreditsAreLegs(ms: seq<Movement>, legs: seq<Leg>, creates: seq<NewPosting>, h: AccountId, x: AssetId)
    requires |legs| == |ms| == |creates|
    requires forall i :: 0 <= i < |ms| ==> creates[i].owner == legs[i].hold && creates[i].asset == legs[i].asset && creates[i].value == legs[i].amount
    ensures SumNew(OfHolder(h, x), creates) == Authorized(legs, h, x)
  {
    if ms != [] {
      CreditsAreLegs(ms[..|ms| - 1], legs[..|ms| - 1], creates[..|ms| - 1], h, x);
    }
  }

  /** The hold is one of the trade's holds and funds none of its movements. */
  predicate HoldOfTrade(sub: i64, t: Transfer, h: AccountId) {
    && (exists i :: 0 <= i < |t.movements| && HoldOf(sub, t.movements[i].to) == h)
    && (forall i :: 0 <= i < |t.movements| ==> t.movements[i].from != h)
  }

  lemma NotFunding(ms: seq<Movement>, h: AccountId, x: AssetId)
    requires forall i :: 0 <= i < |ms| ==> ms[i].from != h
    ensures NetDebit(ms, Key(h, x)) == 0
  {
    NoDebitElsewhere(ms, Key(h, x));
  }

  /** Past the movements' credits nothing is the hold's, and nothing of it is consumed. */
  lemma HoldUntouchedBeyond(rows: map<PostingId, Posting>, t: Transfer, e: Envelope, h: AccountId)
    requires CreditsFirst(t, e) && OnlyDebited(rows, t, e) && forall i :: 0 <= i < |t.movements| ==> t.movements[i].from != h
    ensures forall i :: |t.movements| <= i < |e.creates| ==> e.creates[i].owner != h
    ensures forall id :: id in e.consumes ==> id in rows && rows[id].owner != h
  {
    forall x ensures NetDebit(t.movements, Key(h, x)) == 0 {
      NotFunding(t.movements, h, x);
    }
    hide NetDebit;
    forall id | id in e.consumes ensures id in rows && rows[id].owner != h {
      assert NetDebit(t.movements, Key(rows[id].owner, rows[id].asset)) > 0;
    }
    forall i | |t.movements| <= i < |e.creates| ensures e.creates[i].owner != h {
      assert NetDebit(t.movements, Key(e.creates[i].owner, e.creates[i].asset)) > 0;
    }
  }

  lemma AuthorizedSum(r: Transfer, legs: seq<Leg>, e: Envelope, h: AccountId, x: AssetId)
    requires CreditsFirst(r, e) && |legs| == |r.movements|
    requires forall i :: 0 <= i < |legs| ==> r.movements[i].to == legs[i].hold && r.movements[i].asset == legs[i].asset && r.movements[i].amount == legs[i].amount
    requires forall i :: |r.movements| <= i < |e.creates| ==> e.creates[i].owner != h
    ensures SumNew(OfHolder(h, x), e.creates) == Authorized(legs, h, x)
  {
    var n := |r.movements|;
    var first, rest := e.creates[..n], e.creates[n..];
    assert e.creates == first + rest;
    CreditsAreLegs(r.movements, legs, first, h, x);
    SumNewAppend(OfHolder(h, x), first, rest);
    SumNewOutside(OfHolder(h, x), rest);
  }

  lemma AuthorizationShaped(k: Parked, digest: Digest, s: State, sub: i64, t: Transfer, e: Envelope)
    requires TablesOk(s) && k.codec.Faithful() && ResolvesTo(digest, s, Rewritten(k.codec, sub, t), e)
    requires HoldOfTrade(sub, t, k.h) && k.legs == LegTable(sub, t) && EnvelopeIdOf(digest, e) == k.inflight
    ensures Shaped(k, s.immutable, EnvelopeIdOf(digest, e), e)
  {
    hide TablesOk, ResolvesTo, OnlyDebited, EnvelopeIdOf, SumNew, Authorized;
    var r := Rewritten(k.codec, sub, t);
    ResolvedParts(digest, s, r, e);
    HoldUntouchedBeyond(s.immutable, r, e, k.h);
    forall x ensures SumNew(OfHolder(k.h, x), e.creates) == Authorized(k.legs, k.h, x) {
      AuthorizedSum(r, k.legs, e, k.h, x);
    }
    var i :| 0 <= i < |t.movements| && HoldOf(sub, t.movements[i].to) == k.h;
    assert e.creates[i] == Credit(r.movements[i]);
  }

  /** An intent that neither pays nor is paid by the hold leaves it alone. */
  lemma UnrelatedShaped(k: Parked, digest: Digest, s: State, t: Transfer, e: Envelope)
    requires TablesOk(s) && ResolvesTo(digest, s, t, e) && EnvelopeIdOf(digest, e) != k.inflight
    requires forall i :: 0 <= i < |t.movements| ==> t.movements[i].from != k.h && t.movements[i].to != k.h
    ensures Shaped(k, s.immutable, EnvelopeIdOf(digest, e), e)
  {
    hide TablesOk, ResolvesTo, OnlyDebited, EnvelopeIdOf, SettleShaped, AuthorizeShaped;
    ResolvedParts(digest, s, t, e);
    HoldUntouchedBeyond(s.immutable, t, e, k.h);
    assert forall i :: 0 <= i < |e.consumes| ==> e.consumes[i] in e.consumes;
    assert forall i :: 0 <= i < |t.movements| ==> e.creates[i] == Credit(t.movements[i]);
  }

  // ----- sequences of operations -----

  /** One thing an inflight operation does to the store. */
  datatype Op =
    | Settling(st: Settlement, answer: Answer)
    | Authorizing(sub: i64, trade: Transfer, answer: Answer)
    | Keeping(step: Step)

  ghost predicate Performs(digest: Digest, codec: Codec, s: State, op: Op, s': State) {
    match op
    case Settling(st, r) => exists ts :: CommitsTransfer(digest, s, SettleTransfer(codec, st), ts, s', r)
    case Authorizing(sub, t, r) => Small(t) && exists ts :: CommitsTransfer(digest, s, Rewritten(codec, sub, t), ts, s', r)
    case Keeping(step) => !step.DoCommit? && StepTo(digest, [s], step, s')
  }

  datatype Path = Path(states: seq<State>, ops: seq<Op>)

  /** Whatever the operations did, in order, wherever they stopped. */
  ghost predicate IsPath(digest: Digest, codec: Codec, p: Path) {
    && |p.states| == |p.ops| + 1
    && forall i {:trigger p.ops[i]} :: 0 <= i < |p.ops| ==> Performs(digest, codec, p.states[i], p.ops[i], p.states[i + 1])
  }

  /** A settlement of the inflight transaction itself: out of one of its holds, in an asset
      of that hold, to the hold's destination or back to a funder of that asset. */
  ghost predicate Proper(inflight: EnvelopeId, legs: seq<Leg>, role: Role, st: Settlement) {
    && st.inflight == inflight && st.role == role
    && (exists i :: 0 <= i < |legs| && legs[i].hold == st.hold && legs[i].destination == st.destination)
    && match role
       case Confirming => st.target == st.destination && exists i :: 0 <= i < |legs| && legs[i].hold == st.hold && legs[i].asset == st.asset
       case Voiding => st.amount > 0 && exists i :: 0 <= i < |legs| && legs[i].hold == st.hold && legs[i].asset == st.asset && legs[i].funder == st.target
  }

  ghost predicate IsHold(legs: seq<Leg>, a: AccountId) { exists i :: 0 <= i < |legs| && legs[i].hold == a }

  /** The closing of one of the holds. */
  ghost predicate ClosesHold(legs: seq<Leg>, op: Op) {
    op.Keeping? && op.step.DoTransition? && op.step.mutation == Lifecycle.Close && IsHold(legs, op.step.base.id)
  }

  ghost predicate OwnOp(inflight: EnvelopeId, legs: seq<Leg>, role: Role, op: Op) {
    ClosesHold(legs, op) || (op.Settling? && Proper(inflight, legs, role, op.st))
  }

  /** Nothing but settlements of one role and closings of holds. */
  ghost predicate OnlySettles(inflight: EnvelopeId, legs: seq<Leg>, role: Role, ops: seq<Op>) {
    forall i :: 0 <= i < |ops| ==> OwnOp(inflight, legs, role, ops[i])
  }

  lemma OnlySettlesPush(inflight: EnvelopeId, legs: seq<Leg>, role: Role, ops: seq<Op>, op: Op)
    requires OnlySettles(inflight, legs, role, ops) && OwnOp(inflight, legs, role, op)
    ensures OnlySettles(inflight, legs, role, ops + [op])
  {
    hide OwnOp;
  }

  /** A group's hold, destination and assets are those of legs. */
  lemma GroupProper(inflight: EnvelopeId, legs: seq<Leg>, book: BookId, n: nat, k: nat, amount: Cent)
    requires n < |GroupHolds(legs)| && k < |GroupHolds(legs)[n].assets|
    ensures var g := GroupHolds(legs)[n];
      Proper(inflight, legs, Confirming, Settlement(book, inflight, g.hold, g.destination, g.destination, g.assets[k], amount, Confirming))
  {
    var g := GroupHolds(legs)[n];
    GroupDestination(legs, n);
    assert g.assets[k] in AssetsFrom(legs, g.hold);
  }

  lemma {:induction false} LegsOfFound(legs: seq<Leg>, hold: AccountId, asset: AssetId, i: nat)
    requires i < |LegsOf(legs, hold, asset)|
    ensures exists j :: 0 <= j < |legs| && legs[j] == LegsOf(legs, hold, asset)[i] && legs[j].hold == hold && legs[j].asset == asset
  {
    var front, last := legs[..|legs| - 1], legs[|legs| - 1];
    if i < |LegsOf(front, hold, asset)| {
      LegsOfFound(front, hold, asset, i);
      var j :| 0 <= j < |front| && front[j] == LegsOf(front, hold, asset)[i] && front[j].hold == hold && front[j].asset == asset;
      assert legs[j] == front[j];
    } else {
      assert legs[|legs| - 1] == LegsOf(legs, hold, asset)[i];
    }
  }

  lemma PayoutProper(inflight: EnvelopeId, legs: seq<Leg>, book: BookId, n: nat, k: nat, ps: seq<Payout>, at: seq<nat>, j: nat)
    requires n < |GroupHolds(legs)| && k < |GroupHolds(legs)[n].assets| && j < |ps|
    requires Serves(LegsOf(legs, GroupHolds(legs)[n].hold, GroupHolds(legs)[n].assets[k]), ps, at)
    ensures var g := GroupHolds(legs)[n];
      Proper(inflight, legs, Voiding, Settlement(book, inflight, g.hold, ps[j].funder, g.destination, g.assets[k], ps[j].give, Voiding))
  {
    var g := GroupHolds(legs)[n];
    GroupDestination(legs, n);
    LegsOfFound(legs, g.hold, g.assets[k], at[j]);
  }

  /** The operation filed a transfer that was not in the log. */
  predicate Filed(s: State, r: Answer) { r.Ok? && r.value.transferId !in s.transfers }

  /** Unless it was answered from the log, a settlement pays another account than the hold
      and is not the authorization, and a trade is either the hold's own, filed under the
      handle, or names the hold nowhere. */
  ghost predicate Clear(k: Parked, s: State, op: Op) {
    match op
    case Settling(st, r) => Filed(s, r) ==> st.target != k.h && r.value.transferId != k.inflight
    case Authorizing(sub, t, r) => Filed(s, r) ==>
      if r.value.transferId == k.inflight then HoldOfTrade(sub, t, k.h) && k.legs == LegTable(sub, t)
      else forall i :: 0 <= i < |t.movements| ==> t.movements[i].from != k.h && HoldOf(sub, t.movements[i].to) != k.h
    case Keeping(_) => true
  }

  /** What an inflight transaction does to itself is clear of its holds, once it is
      authorized and no hold is a destination or a funder. */
  lemma SettlesClear(k: Parked, role: Role, s: State, op: Op)
    requires OwnOp(k.inflight, k.legs, role, op) && k.inflight in s.transfers
    requires forall j :: 0 <= j < |k.legs| ==> k.legs[j].destination != k.h && k.legs[j].funder != k.h
    ensures Clear(k, s, op)
  {
  }

  lemma PerformKeepsInv(digest: Digest, codec: Codec, s: State, op: Op, s': State)
    requires Inv(s) && Performs(digest, codec, s, op, s')
    ensures Inv(s') && Grows(s, s')
  {
    hide Inv, Grows, CommitsTransfer, StepTo;
    match op
    case Settling(st, r) =>
      var ts :| CommitsTransfer(digest, s, SettleTransfer(codec, st), ts, s', r);
      FewMovements(SettleTransfer(codec, st));
      SmallIndexable(digest, s, SettleTransfer(codec, st));
      TransferKeeps(digest, s, SettleTransfer(codec, st), ts, s', r);
    case Authorizing(sub, t, r) =>
      var ts :| CommitsTransfer(digest, s, Rewritten(codec, sub, t), ts, s', r);
      RewrittenSmall(codec, sub, t);
      SmallIndexable(digest, s, Rewritten(codec, sub, t));
      TransferKeeps(digest, s, Rewritten(codec, sub, t), ts, s', r);
    case Keeping(step) =>
      SingleHistory(s);
      StepKeepsInv(digest, [s], step, s');
  }

  /** The answer says that `e` was filed. */
  ghost predicate Files(digest: Digest, s: State, e: Envelope, r: Answer) { r == Ok(Receipt(EnvelopeIdOf(digest, e))) && Filed(s, r) }

  /** A committed intent whose envelope has a permitted shape keeps the hold in order. */
  lemma IntentKeepsHold(k: Parked, digest: Digest, s: State, t: Transfer, ts: i64, s': State, r: Answer)
    requires Inv(s) && Small(t) && HoldOk(k, s) && CommitsTransfer(digest, s, t, ts, s', r)
    requires forall e :: ResolvesTo(digest, s, t, e) && Files(digest, s, e, r) ==> Shaped(k, s.immutable, EnvelopeIdOf(digest, e), e)
    ensures HoldOk(k, s')
  {
    hide Inv, Grows, ResolvesTo, Shaped, CommitsPinned, WithSnapshots, Recorded, HoldOk, ResolutionFails;
    if e :| ResolvesTo(digest, s, t, e) && CommitsEnvelope(digest, s, e, ts, s', r) {
      LogParts(s);
      ResolvedRealises(digest, s, t, e);
      CreatesCounted(digest, s, t, e);
      CommitDecides(digest, s, e, ts, s', r);
      if EnvelopeIdOf(digest, e) in s.transfers { AnsweredUnchanged(digest, s, e, ts, s', r); }
      if Files(digest, s, e, r) {
        RecordKeepsHold(k, digest, s, e, s');
      }
    }
  }

  lemma AnsweredUnchanged(digest: Digest, s: State, e: Envelope, ts: i64, s': State, r: Answer)
    requires CommitsPinned(digest, s, e, ts, s', r) && EnvelopeIdOf(digest, e) in s.transfers
    ensures s' == s
  {
  }

  lemma RecordKeepsHold(k: Parked, digest: Digest, s: State, e: Envelope, s': State)
    requires Inv(s) && HoldOk(k, s) && Recorded(digest, s, e, s') && Shaped(k, s.immutable, EnvelopeIdOf(digest, e), e)
    ensures HoldOk(k, s')
  {
    hide Inv, HoldOk, Shaped, Ready, Applied;
    var l, ts :| Ready(s, RequestOf(digest, e, l, ts)) && s' == Applied(s, RequestOf(digest, e, l, ts));
    LogParts(s);
    RecordedShaped(k, s, RequestOf(digest, e, l, ts));
  }

  lemma SettlingKeepsHold(k: Parked, digest: Digest, s: State, st: Settlement, r: Answer, s': State)
    requires Inv(s) && HoldOk(k, s) && k.codec.Faithful() && Performs(digest, k.codec, s, Settling(st, r), s') && Clear(k, s, Settling(st, r))
    ensures HoldOk(k, s')
  {
    hide Inv, CommitsTransfer, ResolvesTo, Shaped, HoldOk, EnvelopeIdOf;
    var t := SettleTransfer(k.codec, st);
    var ts :| CommitsTransfer(digest, s, t, ts, s', r);
    LogParts(s);
    forall e | ResolvesTo(digest, s, t, e) && Files(digest, s, e, r) ensures Shaped(k, s.immutable, EnvelopeIdOf(digest, e), e) {
      SettlementShaped(k, digest, s, st, e);
    }
    FewMovements(t);
    IntentKeepsHold(k, digest, s, t, ts, s', r);
  }

  lemma AuthorizingKeepsHold(k: Parked, digest: Digest, s: State, sub: i64, trade: Transfer, r: Answer, s': State)
    requires Inv(s) && HoldOk(k, s) && k.codec.Faithful() && Performs(digest, k.codec, s, Authorizing(sub, trade, r), s') && Clear(k, s, Authorizing(sub, trade, r))
    ensures HoldOk(k, s')
  {
    hide Inv, CommitsTransfer, ResolvesTo, Shaped, HoldOk, EnvelopeIdOf, HoldOfTrade;
    var t := Rewritten(k.codec, sub, trade);
    var ts :| CommitsTransfer(digest, s, t, ts, s', r);
    LogParts(s);
    forall e | ResolvesTo(digest, s, t, e) && Files(digest, s, e, r) ensures Shaped(k, s.immutable, EnvelopeIdOf(digest, e), e) {
      if EnvelopeIdOf(digest, e) == k.inflight {
        AuthorizationShaped(k, digest, s, sub, trade, e);
      } else {
        UnrelatedShaped(k, digest, s, t, e);
      }
    }
    RewrittenSmall(k.codec, sub, trade);
    IntentKeepsHold(k, digest, s, t, ts, s', r);
  }

  lemma KeepingKeepsHold(k: Parked, digest: Digest, s: State, step: Step, s': State)
    requires Inv(s) && HoldOk(k, s) && !step.DoCommit? && StepTo(digest, [s], step, s')
    ensures HoldOk(k, s')
  {
    hide Inv, Grows, StepTo, Shaped;
    SingleHistory(s);
    Balance.StepShapeFrom(digest, [s], step, s');
  }

  /** The conservation law over every sequence of inflight operations, from any state in
      which the hold is in order. */
  lemma {:induction false} PathKeepsHold(k: Parked, digest: Digest, p: Path, i: nat)
    requires IsPath(digest, k.codec, p) && i < |p.states| && k.codec.Faithful() && Inv(p.states[0]) && HoldOk(k, p.states[0])
    requires forall j :: 0 <= j < |p.ops| ==> Clear(k, p.states[j], p.ops[j])
    ensures Inv(p.states[i]) && HoldOk(k, p.states[i])
  {
    hide Inv, Grows, Performs, Clear, HoldOk;
    if i > 0 {
      PathKeepsHold(k, digest, p, i - 1);
      var s, op, s' := p.states[i - 1], p.ops[i - 1], p.states[i];
      PerformKeepsInv(digest, k.codec, s, op, s');
      OpKeepsHold(k, digest, s, op, s');
    }
  }

  lemma OpKeepsHold(k: Parked, digest: Digest, s: State, op: Op, s': State)
    requires Inv(s) && HoldOk(k, s) && k.codec.Faithful() && Performs(digest, k.codec, s, op, s') && Clear(k, s, op)
    ensures HoldOk(k, s')
  {
    hide Inv, HoldOk, Clear, StepTo, CommitsTransfer;
    match op
    case Settling(st, r) => SettlingKeepsHold(k, digest, s, st, r, s');
    case Authorizing(sub, t, r) => AuthorizingKeepsHold(k, digest, s, sub, t, r, s');
    case Keeping(step) => KeepingKeepsHold(k, digest, s, step, s');
  }

  lemma OperationsConserve(k: Parked, digest: Digest, p: Path, i: nat, records: seq<EnvelopeRecord>, x: AssetId)
    requires IsPath(digest, k.codec, p) && i < |p.states| && k.codec.Faithful() && Inv(p.states[0]) && HoldOk(k, p.states[0])
    requires forall j :: 0 <= j < |p.ops| ==> Clear(k, p.states[j], p.ops[j])
    requires k.inflight in p.states[i].transfers && Forbids(p.states[i], k.h) && Balance.IsTail(p.states[i], k.h, None, None, records)
    ensures LineConserves(k, p.states[i], records, x)
  {
    hide Inv, Grows, IsPath, Clear, HoldOk, Balance.IsTail;
    PathKeepsHold(k, digest, p, i);
    HoldConserves(k, p.states[i], records, x);
  }

  // ----- what a sweep leaves in the holds -----

  ghost function HeldIn(s: State, k: Key): int { LiveSum(s, OfHolder(k.account, k.asset)) }

  /** A new settlement moves its amount from the hold to its target and nothing else. */
  ghost predicate SettleEffect(s: State, st: Settlement, s': State) {
    forall k: Key :: HeldIn(s', k) == HeldIn(s, k)
      + (if k == Key(st.target, st.asset) then st.amount else 0) - (if k == Key(st.hold, st.asset) then st.amount else 0)
  }

  lemma SettleDelta(codec: Codec, st: Settlement, k: Key)
    requires st.amount > 0
    ensures IntentDelta(SettleTransfer(codec, st), k) ==
      (if k == Key(st.target, st.asset) then st.amount else 0) - (if k == Key(st.hold, st.asset) then st.amount else 0)
  {
    var t, m := SettleTransfer(codec, st), Movement(st.hold, st.target, st.asset, st.amount);
    assert t.movements == [m];
    OneDebit(m, k);
    assert Credits([m]) == [Credit(m)];
    assert [Credit(m)][..0] == [];
    assert SumNew(OfHolder(k.account, k.asset), [Credit(m)][..0]) == 0;
  }

  lemma SettleMoves(digest: Digest, codec: Codec, s: State, st: Settlement, ts: i64, s': State, r: Receipt)
    requires Inv(s) && CommitsTransfer(digest, s, SettleTransfer(codec, st), ts, s', Ok(r))
    requires st.amount > 0 && r.transferId !in s.transfers
    ensures SettleEffect(s, st, s')
  {
    hide Inv, Grows, ResolvesTo, CommitsPinned, WithSnapshots, Recorded, LiveSum, ResolutionFails;
    var t := SettleTransfer(codec, st);
    var e :| ResolvesTo(digest, s, t, e) && CommitsEnvelope(digest, s, e, ts, s', Ok(r));
    LogParts(s);
    ResolvedRealises(digest, s, t, e);
    FewMovements(t);
    CreatesCounted(digest, s, t, e);
    CommitDecides(digest, s, e, ts, s', Ok(r));
    hide CommitsEnvelope, IntentDelta, SumNew, SumIds, EnvelopeIdOf, SettleTransfer;
    forall k: Key ensures HeldIn(s', k) == HeldIn(s, k)
      + (if k == Key(st.target, st.asset) then st.amount else 0) - (if k == Key(st.hold, st.asset) then st.amount else 0)
    {
      RecordedSum(digest, s, e, s', OfHolder(k.account, k.asset));
      SettleDelta(codec, st, k);
    }
  }

  /** Overdraft permission never changes. */
  lemma ForbidsKept(s: State, s': State, a: AccountId)
    requires Inv(s) && Inv(s') && Grows(s, s') && Forbids(s, a)
    ensures Forbids(s', a)
  {
    assert LogOk(a, s.accounts[a]) && LogOk(a, s'.accounts[a]);
    assert s'.accounts[a][0] == s.accounts[a][0];
  }

  ghost predicate Drained(s: State, keys: set<Key>) { forall k :: k in keys ==> HeldIn(s, k) == 0 }

  /** Settling out of a holding not among the drained ones, to an account that is none of
      theirs, keeps them drained. */
  lemma SettleKeepsDrained(s: State, st: Settlement, s': State, keys: set<Key>)
    requires Drained(s, keys) && SettleEffect(s, st, s') && st.target != st.hold
    requires Key(st.hold, st.asset) !in keys && forall k :: k in keys ==> k.account != st.target
    ensures Drained(s', keys) && HeldIn(s', Key(st.hold, st.asset)) == HeldIn(s, Key(st.hold, st.asset)) - st.amount
  {
    hide HeldIn;
  }

  /** No hold is a destination or a funder. */
  ghost predicate Apart(legs: seq<Leg>) {
    forall i, j :: 0 <= i < |legs| && 0 <= j < |legs| ==> legs[i].destination != legs[j].hold && legs[i].funder != legs[j].hold
  }

  ghost predicate AllForbid(s: State, legs: seq<Leg>) { forall i :: 0 <= i < |legs| ==> Forbids(s, legs[i].hold) }

  /** No settlement on the path was answered from the log. */
  ghost predicate AllNew(p: Path) {
    |p.states| == |p.ops| + 1 && forall i :: 0 <= i < |p.ops| && p.ops[i].Settling? && p.ops[i].answer.Ok? ==>
      p.ops[i].answer.value.transferId !in p.states[i].transfers
  }

  ghost predicate Sweeping(start: State, legs: seq<Leg>, p: Path) { Apart(legs) && AllForbid(start, legs) && AllNew(p) }

  ghost predicate HoldKeys(legs: seq<Leg>, keys: set<Key>) {
    forall k :: k in keys ==> exists i :: 0 <= i < |legs| && legs[i].hold == k.account
  }

  /** What a sweep has emptied so far, provided nothing was answered from the log. */
  ghost predicate SweptSoFar(s: State, start: State, legs: seq<Leg>, p: Path, keys: set<Key>) {
    HoldKeys(legs, keys) && (Sweeping(start, legs, p) ==> Drained(s, keys))
  }

  lemma NoKeysYet(s: State, start: State, legs: seq<Leg>, p: Path)
    ensures SweptSoFar(s, start, legs, p, {})
  {
  }

  /** Closing an account moves no posting. */
  lemma SweptAfterClose(s: State, s': State, start: State, legs: seq<Leg>, p: Path, q: Path, keys: set<Key>)
    requires SweptSoFar(s, start, legs, p, keys) && Live(s') == Live(s) && (AllNew(q) ==> AllNew(p))
    ensures SweptSoFar(s', start, legs, q, keys)
  {
    hide AllNew;
  }

  /** What is left of a hold's balance while it is being paid out. */
  ghost predicate PayingOut(s: State, start: State, legs: seq<Leg>, p: Path, keys: set<Key>, key: Key, left: int) {
    Sweeping(start, legs, p) ==> Drained(s, keys) && HeldIn(s, key) == left
  }

  /** A prefix of positive payouts sums to less than all of them. */
  lemma {:induction false} PayoutsGrow(legs: seq<Leg>, ps: seq<Payout>, at: seq<nat>, j: nat)
    requires Serves(legs, ps, at) && j <= |ps|
    ensures SumPayouts(ps[..j]) <= SumPayouts(ps) && (j < |ps| ==> SumPayouts(ps[..j]) < SumPayouts(ps))
  {
    if j < |ps| {
      var front := ps[..|ps| - 1];
      assert Serves(legs, front, at[..|ps| - 1]);
      PayoutsGrow(legs, front, at[..|ps| - 1], j);
      assert front[..j] == ps[..j];
    } else {
      assert ps[..j] == ps;
    }
  }

  lemma PaidOut(
      s: State, s': State, start: State, legs: seq<Leg>, p: Path, q: Path, keys: set<Key>, st: Settlement,
      ps: seq<Payout>, at: seq<nat>, j: nat, total: int)
    requires HoldKeys(legs, keys) && Proper(st.inflight, legs, Voiding, st) && j < |ps| && st.amount == ps[j].give
    requires Serves(LegsOf(legs, st.hold, st.asset), ps, at) && SumPayouts(ps) == total
    requires SumPayouts(ps[..j + 1]) == SumPayouts(ps[..j]) + ps[j].give
    requires PayingOut(s, start, legs, p, keys, Key(st.hold, st.asset), total - SumPayouts(ps[..j]))
    requires AllNew(q) ==> AllNew(p) && SettleEffect(s, st, s')
    ensures PayingOut(s', start, legs, q, keys, Key(st.hold, st.asset), total - SumPayouts(ps[..j + 1]))
  {
    hide SettleEffect, HeldIn, SumPayouts, AllNew, LegsOf, Serves;
    PayoutsGrow(LegsOf(legs, st.hold, st.asset), ps, at, j);
    if Sweeping(start, legs, q) {
      SettleKeepsDrained(s, st, s', keys);
    }
  }

  /** Every hold of the leg table is empty in every asset it carried. */
  ghost predicate Swept(s: State, legs: seq<Leg>) {
    forall i :: 0 <= i < |legs| ==> HeldIn(s, Key(legs[i].hold, legs[i].asset)) == 0
  }

  lemma SweptByGroups(s: State, start: State, legs: seq<Leg>, p: Path, keys: set<Key>)
    requires SweptSoFar(s, start, legs, p, keys) && Sweeping(start, legs, p)
    requires forall n, x :: 0 <= n < |GroupHolds(legs)| && x in GroupHolds(legs)[n].assets ==> Key(GroupHolds(legs)[n].hold, x) in keys
    ensures Swept(s, legs)
  {
    hide HeldIn;
    forall i | 0 <= i < |legs| ensures HeldIn(s, Key(legs[i].hold, legs[i].asset)) == 0 {
      GroupOf(legs, i);
      var n :| 0 <= n < |GroupHolds(legs)| && GroupHolds(legs)[n].hold == legs[i].hold;
      assert legs[i].asset in AssetsFrom(legs, legs[i].hold);
      assert legs[i].asset in GroupHolds(legs)[n].assets;
      assert Key(GroupHolds(legs)[n].hold, legs[i].asset) in keys;
    }
  }

  /** A hold that reads no positive balance is empty. */
  lemma NothingHeld(start: State, s: State, legs: seq<Leg>, h: AccountId, x: AssetId)
    requires Inv(start) && Inv(s) && Grows(start, s) && AllForbid(start, legs) && (exists i :: 0 <= i < |legs| && legs[i].hold == h)
    ensures HeldIn(s, Key(h, x)) >= 0
  {
    hide Inv, Grows, LiveSum;
    ForbidsKept(start, s, h);
    OwnedParts(s);
    HoldingsNonNegative(s, h, x);
  }

  /** A holding paid out in full is swept. */
  lemma KeyVoided(start: State, s: State, legs: seq<Leg>, q: Path, done: set<Key>, key: Key, left: int)
    requires Inv(start) && Inv(s) && Grows(start, s) && IsHold(legs, key.account) && HoldKeys(legs, done + {key})
    requires PayingOut(s, start, legs, q, done, key, left) && left <= 0
    ensures SweptSoFar(s, start, legs, q, done + {key})
  {
    hide Inv, Grows, LiveSum, AllNew;
    if Sweeping(start, legs, q) {
      NothingHeld(start, s, legs, key.account, key.asset);
    }
  }

  lemma OwnedParts(s: State)
    requires Inv(s)
    ensures TablesOk(s) && OwnershipOk(s)
  {
  }
}

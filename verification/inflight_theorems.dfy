/** Conservation of inflight holds: what is held is what was authorized less what was
    confirmed and voided, in every state of every interleaving in which only the inflight
    operations touch the hold. */
module InflightTheorems {
  import opened Wrappers
  import opened Domain
  import opened Totals
  import opened Amounts
  import opened Store
  import opened Canonical
  import opened Validate
  import opened Runs
  import opened RunProofs
  import opened LedgerTheorems
  import opened Inflight
  import Balance

  // ----- the shapes of the transfers that touch a hold -----

  /** A settling envelope spends only the hold's postings, and what it creates elsewhere is
      not negative. */
  ghost predicate SettleShaped(codec: Codec, rows: map<PostingId, Posting>, h: AccountId, e: Envelope) {
    && RoleOf(codec, e).Some?
    && (forall id :: id in e.consumes && id in rows ==> rows[id].owner == h)
    && (forall i :: 0 <= i < |e.creates| && e.creates[i].owner != h ==> e.creates[i].value >= 0)
  }

  /** The authorizing envelope spends nothing of the hold and credits it its legs. */
  ghost predicate AuthorizeShaped(codec: Codec, rows: map<PostingId, Posting>, legs: seq<Leg>, h: AccountId, e: Envelope) {
    && RoleOf(codec, e).None?
    && (forall id :: id in e.consumes && id in rows ==> rows[id].owner != h)
    && (forall x :: SumNew(OfHolder(h, x), e.creates) == Authorized(legs, h, x))
  }

  /** One inflight transaction as seen from one of its holds. */
  datatype Parked = Parked(codec: Codec, h: AccountId, inflight: EnvelopeId, legs: seq<Leg>)

  ghost predicate Shaped(k: Parked, rows: map<PostingId, Posting>, t: EnvelopeId, e: Envelope) {
    if t == k.inflight then Touches(rows, e, k.h) && AuthorizeShaped(k.codec, rows, k.legs, k.h, e)
    else Touches(rows, e, k.h) ==> SettleShaped(k.codec, rows, k.h, e)
  }

  /** Only the inflight operations touched the hold. */
  ghost predicate HoldOk(k: Parked, s: State) {
    forall t :: t in s.transfers ==> Shaped(k, s.immutable, t, s.transfers[t].envelope)
  }

  // ----- what each of them moves -----

  lemma {:induction false} CreatesSplit(h: AccountId, x: AssetId, creates: seq<NewPosting>)
    ensures SumNew(OfAsset(x), creates) == SumNew(OfHolder(h, x), creates) + OffHold(h, x, creates)
  {
    if creates != [] {
      CreatesSplit(h, x, creates[..|creates| - 1]);
    }
  }

  lemma {:induction false} ConsumesOwned(h: AccountId, x: AssetId, rows: map<PostingId, Posting>, ids: seq<PostingId>)
    requires forall id :: id in ids && id in rows ==> rows[id].owner == h
    ensures SumIds(OfAsset(x), rows, ids) == SumIds(OfHolder(h, x), rows, ids)
  {
    if ids != [] {
      ConsumesOwned(h, x, rows, ids[..|ids| - 1]);
    }
  }

  lemma {:induction false} OffHoldNonNegative(h: AccountId, x: AssetId, creates: seq<NewPosting>)
    requires forall i :: 0 <= i < |creates| && creates[i].owner != h ==> creates[i].value >= 0
    ensures OffHold(h, x, creates) >= 0
  {
    if creates != [] {
      OffHoldNonNegative(h, x, creates[..|creates| - 1]);
    }
  }

  /** What a stored transfer moved, read off its role. */
  ghost function Expected(k: Parked, t: EnvelopeId, e: Envelope, x: AssetId): int {
    if t == k.inflight then Authorized(k.legs, k.h, x)
    else if RoleOf(k.codec, e).Some? then -OffHold(k.h, x, e.creates)
    else 0
  }

  lemma TouchingDelta(k: Parked, s: State, t: EnvelopeId, x: AssetId)
    requires SumsOk(s) && t in s.transfers && Shaped(k, s.immutable, t, s.transfers[t].envelope)
    requires Touches(s.immutable, s.transfers[t].envelope, k.h)
    ensures Delta(s, t, OfHolder(k.h, x)) == Expected(k, t, s.transfers[t].envelope, x)
    ensures t != k.inflight ==> OffHold(k.h, x, s.transfers[t].envelope.creates) >= 0 && RoleOf(k.codec, s.transfers[t].envelope).Some?
    ensures t == k.inflight ==> RoleOf(k.codec, s.transfers[t].envelope).None?
  {
    var e := s.transfers[t].envelope;
    if t == k.inflight {
      SumIdsOutside(OfHolder(k.h, x), s.immutable, e.consumes);
    } else {
      assert Delta(s, t, OfAsset(x)) == 0;
      CreatesSplit(k.h, x, e.creates);
      ConsumesOwned(k.h, x, s.immutable, e.consumes);
      OffHoldNonNegative(k.h, x, e.creates);
    }
  }

  // ----- over the whole history of the hold -----

  predicate InList(records: seq<EnvelopeRecord>, t: EnvelopeId) {
    exists i :: 0 <= i < |records| && Balance.Tid(records[i]) == t
  }

  ghost function Parts(k: Parked, records: seq<EnvelopeRecord>, x: AssetId): int {
    (if InList(records, k.inflight) then Authorized(k.legs, k.h, x) else 0)
    - Settled(k.codec, Confirming, records, k.h, x) - Settled(k.codec, Voiding, records, k.h, x)
  }

  ghost predicate AllTouch(k: Parked, s: State, records: seq<EnvelopeRecord>) {
    forall i :: 0 <= i < |records| ==> Touches(s.immutable, records[i].envelope, k.h)
  }

  lemma PartsPush(k: Parked, s: State, records: seq<EnvelopeRecord>, x: AssetId)
    requires records != [] && Balance.Stored(s, records) && SumsOk(s) && HoldOk(k, s) && AllTouch(k, s, records)
    ensures var n := |records| - 1;
      Parts(k, records, x) == Parts(k, records[..n], x) + Delta(s, Balance.Tid(records[n]), OfHolder(k.h, x))
  {
    var n := |records| - 1;
    var front, last := records[..n], records[n];
    var t := Balance.Tid(last);
    TouchingDelta(k, s, t, x);
    hide OffHold, Authorized, SumsOk, HoldOk, Delta, AllTouch, Shaped, Touches;
    assert InList(records, k.inflight) <==> InList(front, k.inflight) || t == k.inflight by {
      InListPush(records, k.inflight);
    }
    forall i | 0 <= i < |front| ensures Balance.Tid(front[i]) != t {
      assert front[i] == records[i];
    }
  }

  lemma InListPush(records: seq<EnvelopeRecord>, t: EnvelopeId)
    requires records != []
    ensures InList(records, t) <==> InList(records[..|records| - 1], t) || Balance.Tid(records[|records| - 1]) == t
  {
    var n := |records| - 1;
    if InList(records[..n], t) {
      var i :| 0 <= i < n && Balance.Tid(records[..n][i]) == t;
      assert records[i] == records[..n][i];
    }
    if i :| 0 <= i < n && Balance.Tid(records[i]) == t {
      assert records[..n][i] == records[i];
    }
  }

  lemma {:induction false} PartsTotal(k: Parked, s: State, records: seq<EnvelopeRecord>, x: AssetId)
    requires Balance.Stored(s, records) && SumsOk(s) && HoldOk(k, s) && AllTouch(k, s, records)
    ensures Total(Balance.DeltasOf(s, OfHolder(k.h, x), Balance.TidSet(records))) == Parts(k, records, x)
  {
    hide Balance.TidSet, Balance.DeltasOf, Total, SumsOk, HoldOk, Delta;
    if records == [] {
      Balance.EmptyFold(s, OfHolder(k.h, x));
    } else {
      var front := records[..|records| - 1];
      assert AllTouch(k, s, front);
      PartsTotal(k, s, front, x);
      Balance.FoldStep(s, OfHolder(k.h, x), records);
      PartsPush(k, s, records, x);
    }
  }

  lemma {:induction false} SettledNonNegative(k: Parked, s: State, records: seq<EnvelopeRecord>, role: Role, x: AssetId)
    requires Balance.Stored(s, records) && SumsOk(s) && HoldOk(k, s) && AllTouch(k, s, records)
    ensures Settled(k.codec, role, records, k.h, x) >= 0
  {
    if records != [] {
      var front, t := records[..|records| - 1], Balance.Tid(records[|records| - 1]);
      assert AllTouch(k, s, front);
      TouchingDelta(k, s, t, x);
      hide SumsOk, HoldOk, OffHold, Delta, AllTouch;
      SettledNonNegative(k, s, front, role, x);
    }
  }

  /** The line a status shows for a hold: held = authorized - confirmed - voided, and none
      of the four is negative. */
  ghost predicate LineConserves(k: Parked, s: State, records: seq<EnvelopeRecord>, x: AssetId) {
    var held, authorized := LiveSum(s, OfHolder(k.h, x)), Authorized(k.legs, k.h, x);
    var confirmed, voided := Settled(k.codec, Confirming, records, k.h, x), Settled(k.codec, Voiding, records, k.h, x);
    held == authorized - confirmed - voided && held >= 0 && confirmed >= 0 && voided >= 0 && authorized >= 0
  }

  /** `records` is the history of the hold, in any order. */
  lemma HoldConserves(k: Parked, s: State, records: seq<EnvelopeRecord>, x: AssetId)
    requires Inv(s) && HoldOk(k, s) && Forbids(s, k.h) && k.inflight in s.transfers
    requires Balance.IsTail(s, k.h, None, None, records)
    ensures LineConserves(k, s, records, x)
  {
    hide Inv, SumsOk, IndexOk, ProvenanceOk, TablesOk, OwnershipOk, HoldOk, AllTouch, Balance.IsTail, Balance.Stored, LiveSum, Settled, Authorized,
      Balance.WindowDeltas, Balance.DeltasOf, Balance.TidSet, Total;
    PostingParts(s);
    Balance.TailStored(s, k.h, None, None, records);
    HistoryTouches(k, s, records);
    Balance.WholeWindow(s, k.h, x);
    Balance.TailDeltas(s, k.h, x, None, None, records);
    PartsTotal(k, s, records, x);
    SettledNonNegative(k, s, records, Confirming, x);
    SettledNonNegative(k, s, records, Voiding, x);
    HoldingsNonNegative(s, k.h, x);
  }

  lemma PostingParts(s: State)
    requires Inv(s)
    ensures SumsOk(s) && IndexOk(s) && ProvenanceOk(s) && TablesOk(s) && OwnershipOk(s)
  {
  }

  lemma HistoryTouches(k: Parked, s: State, records: seq<EnvelopeRecord>)
    requires IndexOk(s) && HoldOk(k, s) && k.inflight in s.transfers && Balance.IsTail(s, k.h, None, None, records) && ProvenanceOk(s)
    ensures AllTouch(k, s, records) && InList(records, k.inflight)
  {
    forall i | 0 <= i < |records| ensures Touches(s.immutable, records[i].envelope, k.h) {
      assert Balance.Indexed(s, k.h, None, None, Balance.Tid(records[i]));
    }
    assert Shaped(k, s.immutable, k.inflight, s.transfers[k.inflight].envelope);
    assert Balance.Indexed(s, k.h, None, None, k.inflight);
    var i :| 0 <= i < |records| && records[i] == s.transfers[k.inflight];
    assert Balance.Tid(records[i]) == k.inflight;
  }

  /** So every line `derive_status` produces from the hold's history and balance satisfies
      the conservation law. */
  lemma StatusConserves(k: Parked, s: State, history: History, held: Sums, l: LegStatus)
    requires Inv(s) && HoldOk(k, s) && Forbids(s, k.h) && k.inflight in s.transfers
    requires LineRight(k.codec, k.legs, history, held, l) && l.hold == k.h
    requires Balance.IsTail(s, k.h, None, None, RecordsOf(history, k.h))
    requires At(held, (k.h, l.asset)) == LiveSum(s, OfHolder(k.h, l.asset))
    ensures l.held == l.authorized - l.confirmed - l.voided
    ensures l.held >= 0 && l.authorized >= 0 && l.confirmed >= 0 && l.voided >= 0
  {
    hide Inv, HoldOk, Balance.IsTail, LiveSum, Settled, Authorized;
    HoldConserves(k, s, RecordsOf(history, k.h), l.asset);
  }

  // ----- every interleaving -----

  lemma ShapedKept(k: Parked, s: State, s': State, t: EnvelopeId, e: Envelope)
    requires Shaped(k, s.immutable, t, e) && forall id :: id in e.consumes ==> id in s.immutable
    requires forall id :: id in s.immutable ==> id in s'.immutable && s'.immutable[id] == s.immutable[id]
    ensures Shaped(k, s'.immutable, t, e)
  {
    TouchesKept(s.immutable, s'.immutable, e, k.h);
    assert forall i :: 0 <= i < |e.consumes| ==> e.consumes[i] in e.consumes;
    assert Touches(s'.immutable, e, k.h) == Touches(s.immutable, e, k.h);
    hide Touches, SumNew, Authorized, RoleOf;
  }

  lemma AppliedEnvelope(s: State, req: CommitRequest, t: EnvelopeId)
    requires t in Applied(s, req).transfers
    ensures t != req.transferId ==> t in s.transfers
    ensures Applied(s, req).transfers[t].envelope == if t == req.transferId then req.record.envelope else s.transfers[t].envelope
  {
  }

  lemma RecordedShaped(k: Parked, s: State, req: CommitRequest)
    requires ProvenanceOk(s) && SpentOk(s) && HoldOk(k, s) && Ready(s, req)
    requires Shaped(k, s.immutable, req.transferId, req.record.envelope)
    ensures HoldOk(k, Applied(s, req))
  {
    hide Ready, ProvenanceOk, SpentOk, Applied, Shaped;
    var s' := Applied(s, req);
    AppliedImmutable(s, req);
    forall t | t in s'.transfers ensures Shaped(k, s'.immutable, t, s'.transfers[t].envelope) {
      ConsumesThere(s, req, t);
      AppliedEnvelope(s, req, t);
      ShapedKept(k, s, s', t, s'.transfers[t].envelope);
    }
  }

  /** A run in which a commit that touches the hold is the authorization or a settlement. */
  ghost predicate HoldRun(k: Parked, digest: Digest, states: seq<State>, steps: seq<Step>) {
    && IsRun(digest, states, steps)
    && forall i :: 0 <= i < |steps| && steps[i].DoCommit? ==>
      Shaped(k, states[i].immutable, EnvelopeIdOf(digest, steps[i].envelope), steps[i].envelope)
  }

  lemma {:induction false} HoldRunOk(k: Parked, digest: Digest, states: seq<State>, steps: seq<Step>, i: nat)
    requires HoldRun(k, digest, states, steps) && i < |states|
    ensures HoldOk(k, states[i])
  {
    hide Inv, Grows, StepTo, Shaped, Ready, Applied;
    if i > 0 {
      HoldRunOk(k, digest, states, steps, i - 1);
      Balance.StepShape(digest, states, steps, i - 1);
      RunSafe(digest, states, steps, i - 1, i - 1);
      var s, s', step := states[i - 1], states[i], steps[i - 1];
      if step.DoCommit? && s' != s {
        var req := RequestOf(digest, step.envelope, step.loaded, step.ts);
        LogParts(s);
        RecordedShaped(k, s, req);
      }
    }
  }

  /** In every state of every such run once the authorization is stored, whatever order the
      commits came in and wherever an operation stopped. */
  lemma InflightConserves(k: Parked, digest: Digest, states: seq<State>, steps: seq<Step>, i: nat, records: seq<EnvelopeRecord>, x: AssetId)
    requires HoldRun(k, digest, states, steps) && i < |states|
    requires k.inflight in states[i].transfers && Forbids(states[i], k.h)
    requires Balance.IsTail(states[i], k.h, None, None, records)
    ensures LineConserves(k, states[i], records, x)
  {
    hide Inv, Grows, StepTo, HoldOk, Balance.IsTail;
    HoldRunOk(k, digest, states, steps, i);
    RunSafe(digest, states, steps, i, i);
    HoldConserves(k, states[i], records, x);
  }
}

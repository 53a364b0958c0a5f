/** Inflight holds, the pure side: the leg table, grouping by hold, how a voided balance is
    split, and the status derived from the settling transfers
    (crates/kuatia/src/inflight/projection.rs). */
module Inflight {
  import opened Wrappers
  import opened Domain
  import opened Amounts
  import opened Sorting
  import opened Validate

  datatype Leg = Leg(destination: AccountId, hold: AccountId, funder: AccountId, asset: AssetId, amount: Cent)

  datatype Meta =
    | Authorize(legs: seq<Leg>)
    | Hold(destination: AccountId)
    | Confirm(tx: EnvelopeId, destination: AccountId)
    | Void(tx: EnvelopeId, destination: AccountId)

  /** The metadata codec: `tag` adds a payload under the inflight key, `read` finds it. */
  datatype Codec = Codec(tag: (Metadata, Meta) -> Metadata, read: Metadata -> Option<Meta>) {
    ghost predicate Faithful() { forall md, m :: read(tag(md, m)) == Some(m) }
  }

  // ----- grouping -----

  datatype HoldGroup = HoldGroup(hold: AccountId, destination: AccountId, assets: seq<AssetId>)

  function HoldsOf(legs: seq<Leg>): seq<AccountId> {
    SortDedup(AccountLess, HoldWalk(legs))
  }

  function AssetLess(a: AssetId, b: AssetId): bool { a < b }

  function AssetsFrom(legs: seq<Leg>, hold: AccountId): (r: seq<AssetId>)
    ensures forall x :: x in r <==> exists i :: 0 <= i < |legs| && legs[i].hold == hold && legs[i].asset == x
  {
    if legs == [] then []
    else
      var front := legs[..|legs| - 1];
      var l := legs[|legs| - 1];
      assert forall i :: 0 <= i < |front| ==> front[i] == legs[i];
      AssetsFrom(front, hold) + if l.hold == hold then [l.asset] else []
  }

  function AssetsOf(legs: seq<Leg>, hold: AccountId): seq<AssetId> { SortDedup(AssetLess, AssetsFrom(legs, hold)) }

  function DestinationOf(legs: seq<Leg>, hold: AccountId): Option<AccountId> {
    if legs == [] then None
    else if legs[0].hold == hold then Some(legs[0].destination)
    else DestinationOf(legs[1..], hold)
  }

  lemma {:induction false} DestinationKnown(legs: seq<Leg>, i: nat)
    requires i < |legs|
    ensures DestinationOf(legs, legs[i].hold).Some?
  {
    if legs[0].hold != legs[i].hold {
      DestinationKnown(legs[1..], i - 1);
    }
  }

  /** One group per hold, in order, each with its destination and its assets. */
  function GroupHolds(legs: seq<Leg>): (r: seq<HoldGroup>)
    ensures |r| == |HoldsOf(legs)|
    ensures forall k :: 0 <= k < |r| ==> r[k].hold == HoldsOf(legs)[k] && r[k].assets == AssetsOf(legs, r[k].hold)
  {
    var holds := HoldsOf(legs);
    seq(|holds|, k requires 0 <= k < |holds| =>
      var d := DestinationOf(legs, holds[k]);
      HoldGroup(holds[k], if d.Some? then d.value else holds[k], AssetsOf(legs, holds[k])))
  }

  lemma {:induction false} DestinationFound(legs: seq<Leg>, hold: AccountId)
    requires DestinationOf(legs, hold).Some?
    ensures exists i :: 0 <= i < |legs| && legs[i].hold == hold && legs[i].destination == DestinationOf(legs, hold).value
  {
    if legs[0].hold != hold {
      DestinationFound(legs[1..], hold);
      var i :| 0 <= i < |legs[1..]| && legs[1..][i].hold == hold && legs[1..][i].destination == DestinationOf(legs, hold).value;
      assert legs[i + 1] == legs[1..][i];
    }
  }

  function HoldWalk(legs: seq<Leg>): seq<AccountId> { seq(|legs|, i requires 0 <= i < |legs| => legs[i].hold) }

  /** Each hold of the leg table has a group. */
  lemma GroupOf(legs: seq<Leg>, i: nat)
    requires i < |legs|
    ensures exists k :: 0 <= k < |GroupHolds(legs)| && GroupHolds(legs)[k].hold == legs[i].hold
  {
    var holds := HoldsOf(legs);
    assert HoldWalk(legs)[i] in holds;
    hide HoldsOf;
    var k :| 0 <= k < |holds| && holds[k] == legs[i].hold;
    assert GroupHolds(legs)[k].hold == legs[i].hold;
  }

  /** No hold has two. */
  lemma GroupsDistinct(legs: seq<Leg>)
    ensures forall j, k :: 0 <= j < k < |GroupHolds(legs)| ==> GroupHolds(legs)[j].hold != GroupHolds(legs)[k].hold
  {
    var holds := HoldsOf(legs);
    Ordered();
    SortDedupAscending(AccountLess, HoldWalk(legs));
    assert Ascending(AccountLess, holds);
    hide HoldsOf;
  }

  /** A group's destination is that of one of its legs: resolving it cannot fail. */
  lemma GroupDestination(legs: seq<Leg>, k: nat)
    requires k < |GroupHolds(legs)|
    ensures var g := GroupHolds(legs)[k]; exists i :: 0 <= i < |legs| && legs[i].hold == g.hold && legs[i].destination == g.destination
  {
    var hold := HoldsOf(legs)[k];
    assert hold in HoldsOf(legs);
    assert hold in HoldWalk(legs);
    var i :| 0 <= i < |legs| && HoldWalk(legs)[i] == hold;
    DestinationKnown(legs, i);
    DestinationFound(legs, hold);
  }

  lemma Ordered()
    ensures StrictOrder(AccountLess)
  {
  }

  // ----- splitting a voided balance -----

  datatype Payout = Payout(funder: AccountId, give: Cent)

  function LegsOf(legs: seq<Leg>, hold: AccountId, asset: AssetId): seq<Leg> {
    if legs == [] then []
    else
      var l := legs[|legs| - 1];
      LegsOf(legs[..|legs| - 1], hold, asset) + if l.hold == hold && l.asset == asset then [l] else []
  }

  function SumPayouts(ps: seq<Payout>): int {
    if ps == [] then 0 else SumPayouts(ps[..|ps| - 1]) + ps[|ps| - 1].give
  }

  /** Payouts follow the funding legs in order, `at` saying which leg each one serves. */
  ghost predicate Serves(legs: seq<Leg>, ps: seq<Payout>, at: seq<nat>) {
    && |at| == |ps|
    && (forall k :: 0 <= k < |ps| ==> at[k] < |legs| && ps[k].funder == legs[at[k]].funder && ps[k].give > 0)
    && (forall k :: 0 <= k < |ps| && at[k] < |legs| - 1 ==> ps[k].give <= legs[at[k]].amount)
    && (forall i, j :: 0 <= i < j < |ps| ==> at[i] < at[j])
  }

  lemma SumPayoutsPush(ps: seq<Payout>, p: Payout)
    ensures SumPayouts(ps + [p]) == SumPayouts(ps) + p.give
  {
    assert (ps + [p])[..|ps|] == ps;
  }

  lemma ServesPush(legs: seq<Leg>, ps: seq<Payout>, at: seq<nat>, i: nat, give: Cent)
    requires Serves(legs, ps, at) && i < |legs| && give > 0 && (i < |legs| - 1 ==> give <= legs[i].amount)
    requires forall k :: 0 <= k < |at| ==> at[k] < i
    ensures Serves(legs, ps + [Payout(legs[i].funder, give)], at + [i])
  {
  }

  /** Leg `i` has its whole amount back. */
  ghost predicate PaidBack(legs: seq<Leg>, ps: seq<Payout>, at: seq<nat>, i: nat)
    requires i < |legs| && |at| == |ps|
  {
    exists j :: 0 <= j < |ps| && at[j] == i && ps[j].give == legs[i].amount
  }

  /** A leg is served only when those before it have all they brought. */
  ghost predicate EarlierFirst(legs: seq<Leg>, ps: seq<Payout>, at: seq<nat>) {
    && |at| == |ps|
    && forall k, i :: 0 <= k < |at| && 0 <= i < at[k] && i < |legs| && legs[i].amount > 0 ==> PaidBack(legs, ps, at, i)
  }

  lemma EarlierFirstPush(legs: seq<Leg>, ps: seq<Payout>, at: seq<nat>, i: nat, give: Cent)
    requires EarlierFirst(legs, ps, at) && i < |legs|
    requires forall j :: 0 <= j < i && legs[j].amount > 0 ==> PaidBack(legs, ps, at, j)
    ensures EarlierFirst(legs, ps + [Payout(legs[i].funder, give)], at + [i])
    ensures forall j :: 0 <= j < i && legs[j].amount > 0 ==> PaidBack(legs, ps + [Payout(legs[i].funder, give)], at + [i], j)
    ensures give == legs[i].amount ==> PaidBack(legs, ps + [Payout(legs[i].funder, give)], at + [i], i)
  {
    var ps', at' := ps + [Payout(legs[i].funder, give)], at + [i];
    forall j | 0 <= j < |legs| && PaidBack(legs, ps, at, j) ensures PaidBack(legs, ps', at', j) {
      var n :| 0 <= n < |ps| && at[n] == j && ps[n].give == legs[j].amount;
      assert at'[n] == j && ps'[n].give == legs[j].amount;
    }
    assert at'[|ps|] == i && ps'[|ps|].give == give;
    hide PaidBack;
  }

  /** How a balance is given back to the legs that funded it: in leg order, each its own
      amount as far as the balance goes, the last whatever is left. */
  ghost predicate Distributes(legs: seq<Leg>, balance: Cent, ps: seq<Payout>, at: seq<nat>) {
    && Serves(legs, ps, at) && EarlierFirst(legs, ps, at)
    && (if balance > 0 && legs != [] then SumPayouts(ps) == balance else ps == [])
  }

  /** Splits what remains over the funders of one hold in leg order.  Whatever the caps,
      the payouts of a positive balance with a funder add up to it exactly; every leg but
      the last gives back no more than it brought, and none is reached before those ahead of
      it are paid back; the subtraction never overflows. */
  method DistributeToFunders(legs: seq<Leg>, hold: AccountId, asset: AssetId, balance: Cent) returns (ps: seq<Payout>, ghost at: seq<nat>)
    ensures Distributes(LegsOf(legs, hold, asset), balance, ps, at)
  {
    var funders := LegsOf(legs, hold, asset);
    var remaining := balance;
    ps, at := [], [];
    var i := 0;
    hide Serves, SumPayouts, LegsOf, PaidBack, EarlierFirst;
    NoPayouts(funders);
    while i < |funders| && remaining > 0
      invariant 0 <= i <= |funders| && |at| == |ps| && Serves(funders, ps, at) && EarlierFirst(funders, ps, at)
      invariant remaining > 0 ==> forall j :: 0 <= j < i && funders[j].amount > 0 ==> PaidBack(funders, ps, at, j)
      invariant forall k :: 0 <= k < |at| ==> at[k] < i
      invariant SumPayouts(ps) + remaining == balance && (balance > 0 ==> remaining >= 0)
      invariant i == |funders| && i > 0 ==> remaining <= 0
      invariant balance <= 0 || funders == [] ==> ps == []
    {
      var cap: Cent := if i == |funders| - 1 then CENT_MAX else funders[i].amount;
      var give := if cap < remaining then cap else remaining;
      if give > 0 {
        SumPayoutsPush(ps, Payout(funders[i].funder, give));
        ServesPush(funders, ps, at, i, give);
        EarlierFirstPush(funders, ps, at, i, give);
        ps := ps + [Payout(funders[i].funder, give)];
        at := at + [i];
        remaining := Checked(remaining as int - give).value;
      }
      i := i + 1;
    }
  }

  lemma NoPayouts(legs: seq<Leg>)
    ensures Serves(legs, [], []) && EarlierFirst(legs, [], []) && SumPayouts([]) == 0
  {
  }

  // ----- status -----

  datatype Role = Confirming | Voiding

  function RoleOf(codec: Codec, e: Envelope): Option<Role> {
    match codec.read(e.metadata)
    case Some(Confirm(_, _)) => Some(Confirming)
    case Some(Void(_, _)) => Some(Voiding)
    case _ => None
  }

  /** What an envelope creates outside the hold, in one asset. */
  function OffHold(hold: AccountId, x: AssetId, creates: seq<NewPosting>): int {
    if creates == [] then 0
    else
      var np := creates[|creates| - 1];
      OffHold(hold, x, creates[..|creates| - 1]) + if np.owner != hold && np.asset == x then np.value else 0
  }

  function Authorized(legs: seq<Leg>, hold: AccountId, x: AssetId): int {
    if legs == [] then 0
    else
      var l := legs[|legs| - 1];
      Authorized(legs[..|legs| - 1], hold, x) + if l.hold == hold && l.asset == x then l.amount else 0
  }

  /** What the settling transfers of one role moved out of the hold. */
  function Settled(codec: Codec, role: Role, records: seq<EnvelopeRecord>, hold: AccountId, x: AssetId): int {
    if records == [] then 0
    else
      var e := records[|records| - 1].envelope;
      Settled(codec, role, records[..|records| - 1], hold, x)
      + if RoleOf(codec, e) == Some(role) then OffHold(hold, x, e.creates) else 0
  }

  datatype LegStatus = LegStatus(destination: AccountId, hold: AccountId, asset: AssetId, authorized: Cent, confirmed: Cent, voided: Cent, held: Cent)

  datatype InflightState = Held | PartiallyConfirmed | Confirmed | Voided | Mixed

  /** The state is what its name says about the lines. */
  ghost predicate StateOf(lines: seq<LegStatus>, state: InflightState) {
    var held, confirmed, voided :=
      exists l :: l in lines && l.held > 0, exists l :: l in lines && l.confirmed > 0, exists l :: l in lines && l.voided > 0;
    && (state == Held <==> held && !confirmed && !voided)
    && (state == PartiallyConfirmed <==> held && (confirmed || voided))
    && (state == Mixed <==> !held && confirmed && voided)
    && (state == Voided <==> !held && !confirmed && voided)
    && (state == Confirmed <==> !held && !voided)
  }

  /** A line as the conservation law makes it. */
  predicate Conserving(l: LegStatus) {
    l.held == l.authorized - l.confirmed - l.voided && l.held >= 0 && l.confirmed >= 0 && l.voided >= 0
  }

  ghost predicate SomeAuthorized(lines: seq<LegStatus>) { exists l :: l in lines && l.authorized > 0 }

  /** What the state says of lines that conserve: held, confirmed and voided are everything
      that was authorized on that one side; mixed leaves nothing held, but some on each other
      side; and partially confirmed has some still held and some not. */
  lemma StateMeans(lines: seq<LegStatus>, state: InflightState)
    requires StateOf(lines, state) && forall l :: l in lines ==> Conserving(l)
    ensures state == Held <==> SomeAuthorized(lines) && forall l :: l in lines ==> l.held == l.authorized
    ensures state == Confirmed <==> forall l :: l in lines ==> l.confirmed == l.authorized
    ensures state == Voided <==> SomeAuthorized(lines) && forall l :: l in lines ==> l.voided == l.authorized
    ensures state == Mixed ==> (forall l :: l in lines ==> l.held == 0) && !(forall l :: l in lines ==> l.confirmed == l.authorized)
    ensures state == PartiallyConfirmed <==> (exists l :: l in lines && l.held > 0) && exists l :: l in lines && l.held < l.authorized
  {
  }

  method OverallState(lines: seq<LegStatus>) returns (state: InflightState)
    ensures StateOf(lines, state)
  {
    var anyHeld, anyConfirmed, anyVoided := false, false, false;
    for i := 0 to |lines|
      invariant anyHeld <==> exists j :: 0 <= j < i && lines[j].held > 0
      invariant anyConfirmed <==> exists j :: 0 <= j < i && lines[j].confirmed > 0
      invariant anyVoided <==> exists j :: 0 <= j < i && lines[j].voided > 0
    {
      if lines[i].held > 0 { anyHeld := true; }
      if lines[i].confirmed > 0 { anyConfirmed := true; }
      if lines[i].voided > 0 { anyVoided := true; }
    }
    assert anyHeld <==> exists l :: l in lines && l.held > 0;
    assert anyConfirmed <==> exists l :: l in lines && l.confirmed > 0;
    assert anyVoided <==> exists l :: l in lines && l.voided > 0;
    state :=
      if anyHeld then (if !anyConfirmed && !anyVoided then Held else PartiallyConfirmed)
      else if anyVoided then (if anyConfirmed then Mixed else Voided)
      else Confirmed;
  }

  // ----- deriving the status -----

  type HoldKey = (AccountId, AssetId)
  type Sums = map<HoldKey, Cent>

  /** Adding leg `i` to what its hold is authorized leaves the representable range. */
  predicate LegOverflows(legs: seq<Leg>, i: nat)
    requires i < |legs|
  {
    !Fits(Authorized(legs[..i + 1], legs[i].hold, legs[i].asset))
  }

  method SumAuthorized(legs: seq<Leg>) returns (r: Option<Sums>)
    ensures r.None? <==> exists i :: 0 <= i < |legs| && LegOverflows(legs, i)
    ensures r.Some? ==> forall k :: At(r.value, k) == Authorized(legs, k.0, k.1)
  {
    var m: Sums := map[];
    for i := 0 to |legs|
      invariant forall k :: At(m, k) == Authorized(legs[..i], k.0, k.1)
      invariant forall j :: 0 <= j < i ==> !LegOverflows(legs, j)
    {
      assert legs[..i + 1][..i] == legs[..i];
      var k := (legs[i].hold, legs[i].asset);
      var sum := Checked(At(m, k) as int + legs[i].amount);
      assert At(m, k) + legs[i].amount == Authorized(legs[..i + 1], k.0, k.1);
      if sum.Err? {
        assert LegOverflows(legs, i);
        return None;
      }
      m := m[k := sum.value];
    }
    assert legs[..|legs|] == legs;
    return Some(m);
  }

  /** Adding posting `i` to its bucket, which held `base` for its asset, overflows. */
  predicate PostingOverflows(hold: AccountId, creates: seq<NewPosting>, i: nat, base: int)
    requires i < |creates|
  {
    creates[i].owner != hold && !Fits(base + OffHold(hold, creates[i].asset, creates[..i + 1]))
  }

  lemma OffHoldPush(hold: AccountId, x: AssetId, creates: seq<NewPosting>, i: nat)
    requires i < |creates|
    ensures OffHold(hold, x, creates[..i + 1]) == OffHold(hold, x, creates[..i]) + if creates[i].owner != hold && creates[i].asset == x then creates[i].value else 0
  {
    assert creates[..i + 1][..i] == creates[..i];
  }

  /** Adds what one settling envelope moved out of the hold to its bucket. */
  method AddCreates(m: Sums, hold: AccountId, creates: seq<NewPosting>) returns (r: Option<Sums>)
    ensures r.None? <==> CreatesOverflow(hold, creates, (x: AssetId) => At(m, (hold, x)))
    ensures r.Some? ==> forall k :: At(r.value, k) == At(m, k) + (if k.0 == hold then OffHold(hold, k.1, creates) else 0)
  {
    var out: Sums := m;
    assert creates[..0] == [];
    assert forall x :: OffHold(hold, x, []) == 0;
    hide OffHold;
    for i := 0 to |creates|
      invariant forall k :: At(out, k) == At(m, k) + (if k.0 == hold then OffHold(hold, k.1, creates[..i]) else 0)
      invariant forall j :: 0 <= j < i ==> !PostingOverflows(hold, creates, j, At(m, (hold, creates[j].asset)))
    {
      forall x ensures OffHold(hold, x, creates[..i + 1]) == OffHold(hold, x, creates[..i])
        + if creates[i].owner != hold && creates[i].asset == x then creates[i].value else 0
      {
        OffHoldPush(hold, x, creates, i);
      }
      if creates[i].owner != hold {
        var k := (hold, creates[i].asset);
        var sum := Checked(At(out, k) as int + creates[i].value);
        if sum.Err? {
          assert PostingOverflows(hold, creates, i, At(m, k));
          return None;
        }
        out := out[k := sum.value];
      }
    }
    assert creates[..|creates|] == creates;
    return Some(out);
  }

  /** What two buckets hold once a hold's records are added to them. */
  ghost predicate Added(codec: Codec, hold: AccountId, records: seq<EnvelopeRecord>, before: (Sums, Sums), after: (Sums, Sums)) {
    forall k ::
      && At(after.0, k) == At(before.0, k) + (if k.0 == hold then Settled(codec, Confirming, records, hold, k.1) else 0)
      && At(after.1, k) == At(before.1, k) + (if k.0 == hold then Settled(codec, Voiding, records, hold, k.1) else 0)
  }

  lemma AddedPush(codec: Codec, hold: AccountId, records: seq<EnvelopeRecord>, i: nat, before: (Sums, Sums), now: (Sums, Sums), after: (Sums, Sums))
    requires i < |records| && Added(codec, hold, records[..i], before, now)
    requires var e := records[i].envelope; var role := RoleOf(codec, e);
      && (forall k :: At(after.0, k) == At(now.0, k) + (if role == Some(Confirming) && k.0 == hold then OffHold(hold, k.1, e.creates) else 0))
      && (forall k :: At(after.1, k) == At(now.1, k) + (if role == Some(Voiding) && k.0 == hold then OffHold(hold, k.1, e.creates) else 0))
    ensures Added(codec, hold, records[..i + 1], before, after)
  {
    assert records[..i + 1][..i] == records[..i];
    hide OffHold, RoleOf, At;
  }

  /** Some posting of a settling envelope overflows its bucket. */
  predicate CreatesOverflow(hold: AccountId, creates: seq<NewPosting>, base: AssetId -> int) {
    exists i :: 0 <= i < |creates| && PostingOverflows(hold, creates, i, base(creates[i].asset))
  }

  /** Some sum of settling record `n`, on top of the earlier ones of its role, overflows. */
  ghost predicate RecordOverflows(codec: Codec, hold: AccountId, records: seq<EnvelopeRecord>, n: nat)
    requires n < |records|
  {
    var e := records[n].envelope;
    var role := RoleOf(codec, e);
    && role.Some?
    && CreatesOverflow(hold, e.creates, (x: AssetId) => Settled(codec, role.value, records[..n], hold, x))
  }

  /** The record's turn overflows exactly when its postings do on its role's bucket. */
  ghost predicate TurnOverflows(codec: Codec, hold: AccountId, e: Envelope, now: (Sums, Sums)) {
    var role := RoleOf(codec, e);
    && role.Some?
    && CreatesOverflow(hold, e.creates, (x: AssetId) => At(if role.value == Confirming then now.0 else now.1, (hold, x)))
  }

  lemma RecordTurn(codec: Codec, hold: AccountId, records: seq<EnvelopeRecord>, n: nat, before: (Sums, Sums), now: (Sums, Sums))
    requires n < |records| && Added(codec, hold, records[..n], before, now)
    requires forall k: HoldKey :: k.0 == hold ==> At(before.0, k) == 0 && At(before.1, k) == 0
    ensures RecordOverflows(codec, hold, records, n) <==> TurnOverflows(codec, hold, records[n].envelope, now)
  {
    var e := records[n].envelope;
    var role := RoleOf(codec, e);
    hide Settled, At, PostingOverflows, RoleOf;
    if role.Some? {
      var bucket := if role.value == Confirming then now.0 else now.1;
      forall x: AssetId ensures At(bucket, (hold, x)) == Settled(codec, role.value, records[..n], hold, x) {
      }
    }
  }

  method AddRecords(codec: Codec, hold: AccountId, records: seq<EnvelopeRecord>, buckets: (Sums, Sums)) returns (r: Option<(Sums, Sums)>)
    requires forall k: HoldKey :: k.0 == hold ==> At(buckets.0, k) == 0 && At(buckets.1, k) == 0
    ensures r.None? <==> exists n :: 0 <= n < |records| && RecordOverflows(codec, hold, records, n)
    ensures r.Some? ==> Added(codec, hold, records, buckets, r.value)
  {
    var confirmed, voided := buckets.0, buckets.1;
    assert Added(codec, hold, records[..0], buckets, (confirmed, voided));
    hide Added, OffHold, At, RecordOverflows, PostingOverflows;
    for i := 0 to |records|
      invariant Added(codec, hold, records[..i], buckets, (confirmed, voided))
      invariant forall j :: 0 <= j < i ==> !RecordOverflows(codec, hold, records, j)
    {
      var e := records[i].envelope;
      ghost var now := (confirmed, voided);
      RecordTurn(codec, hold, records, i, buckets, now);
      match RoleOf(codec, e) {
        case None =>
        case Some(Confirming) =>
          var sums := AddCreates(confirmed, hold, e.creates);
          if sums.None? { return None; }
          confirmed := sums.value;
        case Some(Voiding) =>
          var sums := AddCreates(voided, hold, e.creates);
          if sums.None? { return None; }
          voided := sums.value;
      }
      AddedPush(codec, hold, records, i, buckets, now, (confirmed, voided));
    }
    assert records[..|records|] == records;
    return Some((confirmed, voided));
  }

  type History = map<AccountId, seq<EnvelopeRecord>>

  function RecordsOf(history: History, hold: AccountId): seq<EnvelopeRecord> { if hold in history then history[hold] else [] }

  /** The settled amounts of the first `n` groups, and nothing under any other hold. */
  ghost predicate GroupsAdded(codec: Codec, groups: seq<HoldGroup>, n: nat, history: History, sums: (Sums, Sums))
    requires n <= |groups|
  {
    && (forall j, x :: 0 <= j < n ==>
          && At(sums.0, (groups[j].hold, x)) == Settled(codec, Confirming, RecordsOf(history, groups[j].hold), groups[j].hold, x)
          && At(sums.1, (groups[j].hold, x)) == Settled(codec, Voiding, RecordsOf(history, groups[j].hold), groups[j].hold, x))
    && (forall k: HoldKey :: (forall j :: 0 <= j < n ==> groups[j].hold != k.0) ==> At(sums.0, k) == 0 && At(sums.1, k) == 0)
  }

  lemma GroupsAddedPush(codec: Codec, groups: seq<HoldGroup>, n: nat, history: History, sums: (Sums, Sums), after: (Sums, Sums))
    requires n < |groups| && GroupsAdded(codec, groups, n, history, sums)
    requires forall j :: 0 <= j < n ==> groups[j].hold != groups[n].hold
    requires Added(codec, groups[n].hold, RecordsOf(history, groups[n].hold), sums, after)
    ensures GroupsAdded(codec, groups, n + 1, history, after)
  {
    hide Settled, RecordsOf, At;
  }

  /** Some settled sum of the hold overflows on the way. */
  ghost predicate HoldOverflows(codec: Codec, history: History, hold: AccountId) {
    var records := RecordsOf(history, hold);
    exists n :: 0 <= n < |records| && RecordOverflows(codec, hold, records, n)
  }

  lemma NothingUnder(codec: Codec, groups: seq<HoldGroup>, n: nat, history: History, sums: (Sums, Sums))
    requires n < |groups| && GroupsAdded(codec, groups, n, history, sums)
    requires forall j :: 0 <= j < n ==> groups[j].hold != groups[n].hold
    ensures forall k: HoldKey :: k.0 == groups[n].hold ==> At(sums.0, k) == 0 && At(sums.1, k) == 0
  {
    hide Settled, RecordsOf, At;
  }

  method SumSettled(codec: Codec, groups: seq<HoldGroup>, history: History) returns (r: Option<(Sums, Sums)>)
    requires forall j, k :: 0 <= j < k < |groups| ==> groups[j].hold != groups[k].hold
    ensures r.None? <==> exists n :: 0 <= n < |groups| && HoldOverflows(codec, history, groups[n].hold)
    ensures r.Some? ==> GroupsAdded(codec, groups, |groups|, history, r.value)
  {
    var sums: (Sums, Sums) := (map[], map[]);
    assert GroupsAdded(codec, groups, 0, history, sums);
    hide GroupsAdded, Added, RecordOverflows;
    for n := 0 to |groups|
      invariant GroupsAdded(codec, groups, n, history, sums)
      invariant forall j :: 0 <= j < n ==> !HoldOverflows(codec, history, groups[j].hold)
    {
      NothingUnder(codec, groups, n, history, sums);
      var next := AddRecords(codec, groups[n].hold, RecordsOf(history, groups[n].hold), sums);
      if next.None? { return None; }
      GroupsAddedPush(codec, groups, n, history, sums, next.value);
      sums := next.value;
    }
    return Some(sums);
  }

  /** A status line says what it must about its hold and asset. */
  ghost predicate LineRight(codec: Codec, legs: seq<Leg>, history: History, held: Sums, l: LegStatus) {
    && DestinationOf(legs, l.hold) == Some(l.destination)
    && l.authorized == Authorized(legs, l.hold, l.asset)
    && l.confirmed == Settled(codec, Confirming, RecordsOf(history, l.hold), l.hold, l.asset)
    && l.voided == Settled(codec, Voiding, RecordsOf(history, l.hold), l.hold, l.asset)
    && l.held == At(held, (l.hold, l.asset))
  }

  // ----- which lines there are -----

  function AssetKeys(hold: AccountId, assets: seq<AssetId>): (ks: seq<HoldKey>)
    ensures |ks| == |assets| && forall i :: 0 <= i < |ks| ==> ks[i] == (hold, assets[i])
  {
    seq(|assets|, i requires 0 <= i < |assets| => (hold, assets[i]))
  }

  /** The holds in order, each with its assets in order. */
  function GroupKeys(groups: seq<HoldGroup>): seq<HoldKey> {
    if groups == [] then []
    else
      var g := groups[|groups| - 1];
      GroupKeys(groups[..|groups| - 1]) + AssetKeys(g.hold, g.assets)
  }

  function LineKeys(lines: seq<LegStatus>): (ks: seq<HoldKey>)
    ensures |ks| == |lines| && forall i :: 0 <= i < |ks| ==> ks[i] == (lines[i].hold, lines[i].asset)
  {
    seq(|lines|, i requires 0 <= i < |lines| => (lines[i].hold, lines[i].asset))
  }

  lemma {:induction false} GroupKeysMembers(groups: seq<HoldGroup>, k: HoldKey)
    ensures k in GroupKeys(groups) <==> exists n :: 0 <= n < |groups| && groups[n].hold == k.0 && k.1 in groups[n].assets
  {
    if groups != [] {
      var front, g := groups[..|groups| - 1], groups[|groups| - 1];
      GroupKeysMembers(front, k);
      AssetKeysMembers(g.hold, g.assets, k);
      assert k in GroupKeys(groups) <==> k in GroupKeys(front) || k in AssetKeys(g.hold, g.assets);
      hide GroupKeys, AssetKeys;
      if n :| 0 <= n < |front| && front[n].hold == k.0 && k.1 in front[n].assets {
        assert groups[n] == front[n];
      }
    }
  }

  lemma AssetKeysMembers(hold: AccountId, assets: seq<AssetId>, k: HoldKey)
    ensures k in AssetKeys(hold, assets) <==> k.0 == hold && k.1 in assets
  {
    if k.0 == hold && k.1 in assets {
      var i :| 0 <= i < |assets| && assets[i] == k.1;
      assert AssetKeys(hold, assets)[i] == k;
    }
  }

  lemma {:induction false} GroupKeysDistinct(groups: seq<HoldGroup>)
    requires forall j, k :: 0 <= j < k < |groups| ==> groups[j].hold != groups[k].hold
    requires forall n :: 0 <= n < |groups| ==> Distinct(groups[n].assets)
    ensures Distinct(GroupKeys(groups))
  {
    if groups != [] {
      var front, g := groups[..|groups| - 1], groups[|groups| - 1];
      GroupKeysDistinct(front);
      var a, b := GroupKeys(front), AssetKeys(g.hold, g.assets);
      forall i | 0 <= i < |a| ensures a[i].0 != g.hold {
        GroupKeysMembers(front, a[i]);
        assert a[i] in a;
      }
    }
  }

  predicate KeyBefore(a: HoldKey, b: HoldKey) {
    a.0.id < b.0.id || (a.0.id == b.0.id && (a.0.sub < b.0.sub || (a.0.sub == b.0.sub && a.1 < b.1)))
  }

  /** By hold and then by asset. */
  ghost predicate InOrder(ks: seq<HoldKey>) { forall i, j :: 0 <= i < j < |ks| ==> KeyBefore(ks[i], ks[j]) }

  lemma {:induction false} GroupKeysInOrder(groups: seq<HoldGroup>)
    requires forall j, k :: 0 <= j < k < |groups| ==> AccountLess(groups[j].hold, groups[k].hold)
    requires forall n :: 0 <= n < |groups| ==> Ascending(AssetLess, groups[n].assets)
    ensures InOrder(GroupKeys(groups))
  {
    if groups != [] {
      var front, g := groups[..|groups| - 1], groups[|groups| - 1];
      GroupKeysInOrder(front);
      var a, b := GroupKeys(front), AssetKeys(g.hold, g.assets);
      forall i | 0 <= i < |a| ensures AccountLess(a[i].0, g.hold) {
        GroupKeysMembers(front, a[i]);
        assert a[i] in a;
        var n :| 0 <= n < |front| && front[n].hold == a[i].0 && a[i].1 in front[n].assets;
        assert groups[n] == front[n];
      }
      forall i, j | 0 <= i < j < |b| ensures KeyBefore(b[i], b[j]) {
        assert AssetLess(g.assets[i], g.assets[j]);
      }
      assert GroupKeys(groups) == a + b;
    }
  }

  lemma StatusInOrder(legs: seq<Leg>)
    ensures InOrder(GroupKeys(GroupHolds(legs)))
  {
    var groups := GroupHolds(legs);
    Ordered();
    SortDedupAscending(AccountLess, HoldWalk(legs));
    forall n | 0 <= n < |groups| ensures Ascending(AssetLess, groups[n].assets) {
      SortDedupAscending(AssetLess, AssetsFrom(legs, groups[n].hold));
    }
    assert Ascending(AccountLess, HoldsOf(legs));
    hide HoldsOf, AssetsOf, HoldWalk, AssetsFrom;
    GroupKeysInOrder(groups);
  }

  /** The groups' keys are exactly the (hold, asset) pairs of the leg table, each once. */
  lemma StatusKeys(legs: seq<Leg>)
    ensures Distinct(GroupKeys(GroupHolds(legs)))
    ensures forall k :: k in GroupKeys(GroupHolds(legs)) <==> exists i :: 0 <= i < |legs| && k == (legs[i].hold, legs[i].asset)
  {
    var groups := GroupHolds(legs);
    GroupsDistinct(legs);
    forall n | 0 <= n < |groups| ensures Distinct(groups[n].assets) {
      AssetsDistinct(legs, groups[n].hold);
    }
    GroupKeysDistinct(groups);
    forall k ensures k in GroupKeys(groups) <==> exists i :: 0 <= i < |legs| && k == (legs[i].hold, legs[i].asset) {
      GroupKeysMembers(groups, k);
      KeyOfLeg(legs, k);
    }
  }

  lemma KeyOfLeg(legs: seq<Leg>, k: HoldKey)
    ensures (exists n :: 0 <= n < |GroupHolds(legs)| && GroupHolds(legs)[n].hold == k.0 && k.1 in GroupHolds(legs)[n].assets)
      <==> exists i :: 0 <= i < |legs| && k == (legs[i].hold, legs[i].asset)
  {
    var groups := GroupHolds(legs);
    if n :| 0 <= n < |groups| && groups[n].hold == k.0 && k.1 in groups[n].assets {
      assert k.1 in AssetsFrom(legs, k.0);
    }
    if i :| 0 <= i < |legs| && k == (legs[i].hold, legs[i].asset) {
      GroupOf(legs, i);
      assert k.1 in AssetsFrom(legs, k.0);
    }
  }

  lemma AssetsDistinct(legs: seq<Leg>, hold: AccountId)
    ensures Distinct(AssetsOf(legs, hold))
  {
    SortDedupAscending(AssetLess, AssetsFrom(legs, hold));
  }

  /** Some checked sum of the status overflows. */
  ghost predicate StatusOverflows(codec: Codec, legs: seq<Leg>, history: History) {
    || (exists i :: 0 <= i < |legs| && LegOverflows(legs, i))
    || (exists i :: 0 <= i < |legs| && HoldOverflows(codec, history, legs[i].hold))
  }

  lemma HoldsOverflow(codec: Codec, legs: seq<Leg>, history: History)
    ensures (exists n :: 0 <= n < |GroupHolds(legs)| && HoldOverflows(codec, history, GroupHolds(legs)[n].hold))
      <==> exists i :: 0 <= i < |legs| && HoldOverflows(codec, history, legs[i].hold)
  {
    hide HoldOverflows;
    var groups := GroupHolds(legs);
    if n :| 0 <= n < |groups| && HoldOverflows(codec, history, groups[n].hold) {
      GroupDestination(legs, n);
    }
    if i :| 0 <= i < |legs| && HoldOverflows(codec, history, legs[i].hold) {
      GroupOf(legs, i);
    }
  }

  /** The whole status. */
  ghost predicate StatusRight(codec: Codec, legs: seq<Leg>, history: History, held: Sums, lines: seq<LegStatus>, state: InflightState) {
    && Distinct(LineKeys(lines)) && InOrder(LineKeys(lines))
    && (forall k :: k in LineKeys(lines) <==> exists i :: 0 <= i < |legs| && k == (legs[i].hold, legs[i].asset))
    && (forall l :: l in lines ==> LineRight(codec, legs, history, held, l))
    && StateOf(lines, state)
  }

  lemma GroupKeysPush(groups: seq<HoldGroup>, n: nat)
    requires n < |groups|
    ensures GroupKeys(groups[..n + 1]) == GroupKeys(groups[..n]) + AssetKeys(groups[n].hold, groups[n].assets)
  {
    assert groups[..n + 1][..n] == groups[..n];
  }

  lemma NoAssetKeys(hold: AccountId, assets: seq<AssetId>)
    ensures AssetKeys(hold, assets[..0]) == [] && assets[..|assets|] == assets
  {
  }

  lemma LinePush(lines: seq<LegStatus>, line: LegStatus, before: seq<HoldKey>, hold: AccountId, assets: seq<AssetId>, k: nat)
    requires k < |assets| && LineKeys(lines) == before + AssetKeys(hold, assets[..k])
    requires line.hold == hold && line.asset == assets[k]
    ensures LineKeys(lines + [line]) == before + AssetKeys(hold, assets[..k + 1])
  {
    assert AssetKeys(hold, assets[..k + 1]) == AssetKeys(hold, assets[..k]) + [(hold, assets[k])];
    assert LineKeys(lines + [line]) == LineKeys(lines) + [(hold, assets[k])];
  }

  lemma GroupDestinationOf(legs: seq<Leg>, n: nat)
    requires n < |GroupHolds(legs)|
    ensures var g := GroupHolds(legs)[n]; DestinationOf(legs, g.hold) == Some(g.destination)
  {
    var hold := HoldsOf(legs)[n];
    assert hold in HoldsOf(legs);
    assert hold in HoldWalk(legs);
    var i :| 0 <= i < |legs| && HoldWalk(legs)[i] == hold;
    DestinationKnown(legs, i);
  }

  /** Exactly one line per hold and asset of the leg table, each of them right, and the state
      their names say; or no status, exactly when a sum overflows. */
  method DeriveStatus(codec: Codec, legs: seq<Leg>, history: History, held: Sums) returns (r: Option<(seq<LegStatus>, InflightState)>)
    ensures r.None? <==> StatusOverflows(codec, legs, history)
    ensures r.Some? ==> StatusRight(codec, legs, history, held, r.value.0, r.value.1)
  {
    var groups := GroupHolds(legs);
    var authorized := SumAuthorized(legs);
    if authorized.None? { return None; }
    GroupsDistinct(legs);
    HoldsOverflow(codec, legs, history);
    var settled := SumSettled(codec, groups, history);
    if settled.None? { return None; }
    hide HoldOverflows, LegOverflows;
    var lines := StatusLines(codec, legs, history, held, authorized.value, settled.value);
    StatusKeys(legs);
    StatusInOrder(legs);
    hide InOrder, GroupKeys;
    var state := OverallState(lines);
    return Some((lines, state));
  }

  method StatusLines(codec: Codec, legs: seq<Leg>, history: History, held: Sums, authorized: Sums, settled: (Sums, Sums)) returns (lines: seq<LegStatus>)
    requires forall k :: At(authorized, k) == Authorized(legs, k.0, k.1)
    requires GroupsAdded(codec, GroupHolds(legs), |GroupHolds(legs)|, history, settled)
    ensures LineKeys(lines) == GroupKeys(GroupHolds(legs))
    ensures forall l :: l in lines ==> LineRight(codec, legs, history, held, l)
  {
    var groups := GroupHolds(legs);
    lines := [];
    assert LineKeys(lines) == GroupKeys(groups[..0]);
    hide GroupHolds, LineRight, Authorized, Settled, RecordsOf, At, LineKeys, AssetKeys, GroupKeys;
    for n := 0 to |groups|
      invariant LineKeys(lines) == GroupKeys(groups[..n])
      invariant forall l :: l in lines ==> LineRight(codec, legs, history, held, l)
    {
      var g := groups[n];
      GroupDestinationOf(legs, n);
      ghost var before := LineKeys(lines);
      NoAssetKeys(g.hold, g.assets);
      for k := 0 to |g.assets|
        invariant LineKeys(lines) == before + AssetKeys(g.hold, g.assets[..k])
        invariant forall l :: l in lines ==> LineRight(codec, legs, history, held, l)
      {
        var key := (g.hold, g.assets[k]);
        var line := LegStatus(g.destination, g.hold, g.assets[k], At(authorized, key), At(settled.0, key), At(settled.1, key), At(held, key));
        LineIsRight(codec, legs, history, held, authorized, settled, groups, n, k, line);
        LinePush(lines, line, before, g.hold, g.assets, k);
        lines := lines + [line];
      }
      GroupKeysPush(groups, n);
    }
    assert groups[..|groups|] == groups;
  }

  lemma LineIsRight(
      codec: Codec, legs: seq<Leg>, history: History, held: Sums, authorized: Sums, settled: (Sums, Sums),
      groups: seq<HoldGroup>, n: nat, k: nat, l: LegStatus)
    requires forall k :: At(authorized, k) == Authorized(legs, k.0, k.1)
    requires GroupsAdded(codec, groups, |groups|, history, settled) && n < |groups| && k < |groups[n].assets|
    requires DestinationOf(legs, groups[n].hold) == Some(groups[n].destination)
    requires var key := (groups[n].hold, groups[n].assets[k]);
      l == LegStatus(groups[n].destination, key.0, key.1, At(authorized, key), At(settled.0, key), At(settled.1, key), At(held, key))
    ensures LineRight(codec, legs, history, held, l)
  {
    hide Settled, Authorized, RecordsOf, At;
  }
}

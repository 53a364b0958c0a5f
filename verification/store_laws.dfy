/** What the store's calls amount to, read off the tables: each lifecycle primitive as one
    move of rows, each guard as the condition it stands for, and a call made twice as the
    same call made once (crates/kuatia-storage/src/mem_store.rs, crates/kuatia-storage/src/store.rs). */
module StoreLaws {
  import opened Wrappers
  import opened Domain
  import opened Amounts
  import opened Events
  import opened Store
  import opened Runs
  import opened Validate
  import opened LedgerTheorems
  import opened LedgerOps

  // ----- posting lifecycle primitives -----

  function Among(ids: seq<PostingId>, rows: set<PostingId>): set<PostingId> { set id | id in ids && id in rows }

  lemma AmongPush(ids: seq<PostingId>, rows: set<PostingId>)
    requires ids != []
    ensures var front, id := ids[..|ids| - 1], ids[|ids| - 1];
      Among(ids, rows) == if id in rows then Among(front, rows) + {id} else Among(front, rows)
  {
    assert ids == ids[..|ids| - 1] + [ids[|ids| - 1]];
  }

  function Unheld(held: map<PostingId, Held>, ids: set<PostingId>): map<PostingId, Posting>
    requires ids <= held.Keys
  {
    map id | id in ids :: held[id].posting
  }

  function Holds(active: map<PostingId, Posting>, ids: set<PostingId>, rid: ReservationId): map<PostingId, Held>
    requires ids <= active.Keys
  {
    map id | id in ids :: Held(active[id], rid)
  }

  lemma ReserveStep(s: State, t: State, before: set<PostingId>, id: PostingId, rid: ReservationId)
    requires before <= s.active.Keys && t == s.(active := s.active - before, reserved := s.reserved + Holds(s.active, before, rid))
    ensures var after := if id in s.active then before + {id} else before;
      && |after| == |before| + (if id in t.active then 1 else 0)
      && (if id in t.active then t.(active := t.active - {id}, reserved := t.reserved[id := Held(t.active[id], rid)]) else t)
         == s.(active := s.active - after, reserved := s.reserved + Holds(s.active, after, rid))
  {
    OneMore(before, id);
    if id in s.active && id !in before {
      LessOne(s.active, before, id);
      HeldOneMore(s.active, s.reserved, before, id, rid);
    }
    hide Holds;
  }

  lemma OneMore<T>(before: set<T>, x: T)
    ensures if x in before then before + {x} == before else |before + {x}| == |before| + 1
  {
  }

  lemma LessOne<T, U>(m: map<T, U>, before: set<T>, x: T)
    ensures m - before - {x} == m - (before + {x})
  {
  }

  lemma HeldOneMore(active: map<PostingId, Posting>, reserved: map<PostingId, Held>, before: set<PostingId>, id: PostingId, rid: ReservationId)
    requires before <= active.Keys && id in active
    ensures (reserved + Holds(active, before, rid))[id := Held(active[id], rid)] == reserved + Holds(active, before + {id}, rid)
  {
  }

  /** The requested rows that are active become reserved under `rid`, each counted once;
      nothing else changes. */
  lemma {:induction false} ReserveMoves(s: State, ids: seq<PostingId>, rid: ReservationId)
    ensures var (t, n) := Reserve(s, ids, rid); var moved := Among(ids, s.active.Keys);
      n == |moved| && t == s.(active := s.active - moved, reserved := s.reserved + Holds(s.active, moved, rid))
  {
    if ids != [] {
      var front, id := ids[..|ids| - 1], ids[|ids| - 1];
      ReserveMoves(s, front, rid);
      AmongPush(ids, s.active.Keys);
      ReserveStep(s, Reserve(s, front, rid).0, Among(front, s.active.Keys), id, rid);
      hide Among, Holds;
    } else {
      assert Among(ids, s.active.Keys) == {};
      assert s.reserved + Holds(s.active, {}, rid) == s.reserved;
    }
  }

  ghost function HeldBy(s: State, rid: ReservationId): set<PostingId> { set id | id in s.reserved && s.reserved[id].reservation == rid }

  lemma ReleaseStep(s: State, t: State, before: set<PostingId>, id: PostingId, rid: ReservationId)
    requires before <= HeldBy(s, rid) && t == s.(reserved := s.reserved - before, active := s.active + Unheld(s.reserved, before))
    ensures var after := if id in HeldBy(s, rid) then before + {id} else before;
      && |after| == |before| + (if id in t.reserved && t.reserved[id].reservation == rid then 1 else 0)
      && (if id in t.reserved && t.reserved[id].reservation == rid
          then t.(reserved := t.reserved - {id}, active := t.active[id := t.reserved[id].posting]) else t)
         == s.(reserved := s.reserved - after, active := s.active + Unheld(s.reserved, after))
  {
    OneMore(before, id);
    if id in HeldBy(s, rid) && id !in before {
      LessOne(s.reserved, before, id);
      FreedOneMore(s.active, s.reserved, before, id);
    }
    hide Unheld;
  }

  lemma FreedOneMore(active: map<PostingId, Posting>, reserved: map<PostingId, Held>, before: set<PostingId>, id: PostingId)
    requires before <= reserved.Keys && id in reserved
    ensures (active + Unheld(reserved, before))[id := reserved[id].posting] == active + Unheld(reserved, before + {id})
  {
  }

  /** The requested rows that `rid` holds, and no others, become active again. */
  lemma {:induction false} ReleaseMoves(s: State, ids: seq<PostingId>, rid: ReservationId)
    ensures var (t, n) := Release(s, ids, rid); var moved := Among(ids, HeldBy(s, rid));
      n == |moved| && t == s.(reserved := s.reserved - moved, active := s.active + Unheld(s.reserved, moved))
  {
    if ids != [] {
      var front, id := ids[..|ids| - 1], ids[|ids| - 1];
      ReleaseMoves(s, front, rid);
      AmongPush(ids, HeldBy(s, rid));
      ReleaseStep(s, Release(s, front, rid).0, Among(front, HeldBy(s, rid)), id, rid);
      hide Among, Unheld, HeldBy;
    } else {
      assert Among(ids, HeldBy(s, rid)) == {};
      assert s.active + Unheld(s.reserved, {}) == s.active;
    }
  }

  /** What a consumption takes from: the active rows, or those one reservation holds. */
  ghost function Pool(s: State, rid: Option<ReservationId>): set<PostingId> {
    if rid.None? then s.active.Keys else HeldBy(s, rid.value)
  }

  ghost function Without(s: State, rid: Option<ReservationId>, gone: set<PostingId>): State {
    if rid.None? then s.(active := s.active - gone) else s.(reserved := s.reserved - gone)
  }

  lemma DeactivateStep(s: State, t: State, before: set<PostingId>, id: PostingId, rid: Option<ReservationId>)
    requires before <= Pool(s, rid) && t == Without(s, rid, before)
    ensures var after := if id in Pool(s, rid) then before + {id} else before;
      |after| == |before| + (if id in Pool(t, rid) then 1 else 0) && (if id in Pool(t, rid) then Without(t, rid, {id}) else t) == Without(s, rid, after)
  {
    if id in before {
      assert before + {id} == before;
    } else {
      assert s.active - before - {id} == s.active - (before + {id});
      assert s.reserved - before - {id} == s.reserved - (before + {id});
    }
  }

  /** Without a reservation the requested active rows go; with one, those it holds. */
  lemma {:induction false} DeactivateRemoves(s: State, ids: seq<PostingId>, rid: Option<ReservationId>)
    ensures var (t, n) := Deactivate(s, ids, rid); var gone := Among(ids, Pool(s, rid));
      n == |gone| && t == Without(s, rid, gone)
  {
    if ids != [] {
      var front, id := ids[..|ids| - 1], ids[|ids| - 1];
      DeactivateRemoves(s, front, rid);
      AmongPush(ids, Pool(s, rid));
      DeactivateStep(s, Deactivate(s, front, rid).0, Among(front, Pool(s, rid)), id, rid);
      hide Among;
    } else {
      assert Among(ids, Pool(s, rid)) == {};
      assert s.active - {} == s.active && s.reserved - {} == s.reserved;
    }
  }

  function NewIds(s: State, ps: seq<Posting>): set<PostingId> { set i | 0 <= i < |ps| && ps[i].id !in s.immutable :: ps[i].id }

  lemma NewIdsPush(s: State, ps: seq<Posting>)
    requires ps != []
    ensures var front, p := ps[..|ps| - 1], ps[|ps| - 1];
      NewIds(s, ps) == if p.id in s.immutable then NewIds(s, front) else NewIds(s, front) + {p.id}
  {
    var front := ps[..|ps| - 1];
    assert forall i :: 0 <= i < |front| ==> front[i] == ps[i];
    forall id | id in NewIds(s, front) ensures id in NewIds(s, ps) {
      var i :| 0 <= i < |front| && front[i].id !in s.immutable && front[i].id == id;
      assert ps[i].id == id;
    }
  }

  /** `t` is `s` with rows under `added` stored and active, each the first of `ps` there. */
  ghost predicate InsertedUnder(s: State, ps: seq<Posting>, t: State, added: set<PostingId>) {
    && t == s.(immutable := t.immutable, active := t.active)
    && t.immutable.Keys == s.immutable.Keys + added && t.active.Keys == s.active.Keys + added
    && (forall id :: id in s.immutable ==> t.immutable[id] == s.immutable[id])
    && (forall id :: id in s.active && id !in added ==> t.active[id] == s.active[id])
    && (forall id :: id in added ==> t.active[id] == t.immutable[id] && FirstUnder(ps, id, t.active[id]))
  }

  ghost predicate Inserted(s: State, ps: seq<Posting>, t: State) { InsertedUnder(s, ps, t, NewIds(s, ps)) }

  lemma InsertedOne(s: State, front: seq<Posting>, ps: seq<Posting>, t: State, added: set<PostingId>, p: Posting)
    requires InsertedUnder(s, front, t, added) && p.id !in t.immutable && FirstUnder(ps, p.id, p)
    requires forall id :: id in added ==> id in t.active && FirstUnder(ps, id, t.active[id])
    ensures InsertedUnder(s, ps, t.(immutable := t.immutable[p.id := p], active := t.active[p.id := p]), added + {p.id})
  {
    hide FirstUnder;
    assert t.immutable[p.id := p].Keys == t.immutable.Keys + {p.id};
    assert t.active[p.id := p].Keys == t.active.Keys + {p.id};
  }

  lemma InsertStep(s: State, ps: seq<Posting>, t: State)
    requires ps != [] && Inserted(s, ps[..|ps| - 1], t)
    ensures var p := ps[|ps| - 1];
      && Inserted(s, ps, if p.id in t.immutable then t else t.(immutable := t.immutable[p.id := p], active := t.active[p.id := p]))
      && |NewIds(s, ps)| == |NewIds(s, ps[..|ps| - 1])| + (if p.id in t.immutable then 0 else 1)
  {
    hide NewIds, FirstUnder, InsertedUnder;
    var front, p := ps[..|ps| - 1], ps[|ps| - 1];
    NewIdsPush(s, ps);
    OneMore(NewIds(s, front), p.id);
    FirstsStay(s, ps, t);
    StoredUnder(s, front, t, NewIds(s, front), p.id);
    if p.id in t.immutable {
      InsertedMore(s, front, ps, t, NewIds(s, front));
    } else {
      FrontIds(s, ps);
      NewFirst(ps, NewIds(s, front), s);
      InsertedOne(s, front, ps, t, NewIds(s, front), p);
    }
  }

  lemma StoredUnder(s: State, ps: seq<Posting>, t: State, added: set<PostingId>, id: PostingId)
    requires InsertedUnder(s, ps, t, added)
    ensures id in t.immutable <==> id in s.immutable || id in added
  {
  }

  lemma InsertedMore(s: State, front: seq<Posting>, ps: seq<Posting>, t: State, added: set<PostingId>)
    requires InsertedUnder(s, front, t, added) && forall id :: id in added ==> id in t.active && FirstUnder(ps, id, t.active[id])
    ensures InsertedUnder(s, ps, t, added)
  {
    hide FirstUnder;
  }

  lemma FrontIds(s: State, ps: seq<Posting>)
    requires ps != []
    ensures forall i :: 0 <= i < |ps| - 1 && ps[i].id !in s.immutable ==> ps[i].id in NewIds(s, ps[..|ps| - 1])
  {
    forall i | 0 <= i < |ps| - 1 && ps[i].id !in s.immutable ensures ps[i].id in NewIds(s, ps[..|ps| - 1]) {
      assert ps[..|ps| - 1][i] == ps[i];
    }
  }

  lemma FirstsStay(s: State, ps: seq<Posting>, t: State)
    requires ps != [] && Inserted(s, ps[..|ps| - 1], t)
    ensures forall id :: id in NewIds(s, ps[..|ps| - 1]) ==> id in t.active && FirstUnder(ps, id, t.active[id])
  {
    var front := ps[..|ps| - 1];
    forall id | id in NewIds(s, front) ensures FirstUnder(ps, id, t.active[id]) {
      FirstStays(ps, id, t.active[id]);
    }
  }

  /** Every posting whose id is new is stored and active, the first under each id, and
      counted; known ids are left alone. */
  lemma {:induction false} InsertAdds(s: State, ps: seq<Posting>)
    ensures var (t, n) := InsertPostings(s, ps); n == |NewIds(s, ps)| && Inserted(s, ps, t)
  {
    hide NewIds, Inserted;
    if ps == [] {
      NoneInserted(s);
    } else {
      InsertAdds(s, ps[..|ps| - 1]);
      InsertStep(s, ps, InsertPostings(s, ps[..|ps| - 1]).0);
    }
  }

  lemma NoneInserted(s: State)
    ensures NewIds(s, []) == {} && Inserted(s, [], s)
  {
    assert s.immutable.Keys + {} == s.immutable.Keys && s.active.Keys + {} == s.active.Keys;
  }

  predicate FirstUnder(ps: seq<Posting>, id: PostingId, p: Posting) {
    exists i :: 0 <= i < |ps| && ps[i] == p && p.id == id && forall j :: 0 <= j < i ==> ps[j].id != id
  }

  lemma FirstStays(ps: seq<Posting>, id: PostingId, p: Posting)
    requires ps != [] && FirstUnder(ps[..|ps| - 1], id, p)
    ensures FirstUnder(ps, id, p)
  {
    var front := ps[..|ps| - 1];
    var i :| 0 <= i < |front| && front[i] == p && p.id == id && forall j :: 0 <= j < i ==> front[j].id != id;
    assert ps[i] == p && forall j :: 0 <= j < i ==> ps[j] == front[j];
  }

  lemma NewFirst(ps: seq<Posting>, before: set<PostingId>, s: State)
    requires ps != [] && ps[|ps| - 1].id !in s.immutable && ps[|ps| - 1].id !in before
    requires forall i :: 0 <= i < |ps| - 1 && ps[i].id !in s.immutable ==> ps[i].id in before
    ensures FirstUnder(ps, ps[|ps| - 1].id, ps[|ps| - 1])
  {
    var n := |ps| - 1;
    assert forall j :: 0 <= j < n ==> ps[j].id != ps[n].id;
  }

  // ----- what state a posting is in -----

  /** Of a state a run can reach, `Spent` means that a stored transfer consumed the posting,
      `Missing` that none created it, and what is neither is live. */
  lemma PostingStates(s: State, id: PostingId)
    requires Inv(s)
    ensures StateOf(s, id).Missing? <==> !(id.transfer in s.transfers && id.index < |s.transfers[id.transfer].envelope.creates|)
    ensures StateOf(s, id).Spent? <==> exists t :: t in s.transfers && id in Consumes(s, t)
    ensures StateOf(s, id).Active? || StateOf(s, id).Reserved? <==> id in Live(s)
    ensures StateOf(s, id).Reserved? ==> id in HeldBy(s, StateOf(s, id).reservation)
  {
    hide SumsOk, EventsOk, AccountsOk, OwnershipOk, IndexOk;
    CreatedIsStored(s, id);
    SpentIsConsumed(s, id);
    LiveRows(s);
    hide ProvenanceOk, SpentOk, TablesOk;
  }

  lemma CreatedIsStored(s: State, id: PostingId)
    requires TablesOk(s) && ProvenanceOk(s)
    ensures id in s.immutable <==> id.transfer in s.transfers && id.index < |s.transfers[id.transfer].envelope.creates|
  {
    if id.transfer in s.transfers && id.index < |s.transfers[id.transfer].envelope.creates| {
      assert CreatedBy(s, id.transfer, id.index);
    }
  }

  lemma SpentIsConsumed(s: State, id: PostingId)
    requires SpentOk(s)
    ensures id in s.immutable && id !in Live(s) <==> exists t :: t in s.transfers && id in Consumes(s, t)
  {
    hide Live;
  }

  // ----- the guards of a commit -----

  ghost predicate Passes(s: State, a: AccountId) { Head(s, a).Some? && !Head(s, a).value.IsFrozen() && !Head(s, a).value.IsClosed() }

  /** The first involved account that may not take part. */
  ghost predicate FirstBarred(s: State, involved: seq<AccountId>, a: AccountId) {
    exists i :: 0 <= i < |involved| && involved[i] == a && !Passes(s, a) && forall j :: 0 <= j < i ==> Passes(s, involved[j])
  }

  ghost predicate FirstInactive(s: State, consume: seq<PostingId>, id: PostingId) {
    exists i :: 0 <= i < |consume| && consume[i] == id && id !in s.active && forall j :: 0 <= j < i ==> consume[j] in s.active
  }

  ghost predicate AllPass(s: State, involved: seq<AccountId>) { forall i :: 0 <= i < |involved| ==> Passes(s, involved[i]) }

  /** What each verdict of the lifecycle check says of the first account it stops at. */
  ghost predicate LifecycleVerdict(s: State, involved: seq<AccountId>, g: Option<CommitResult>) {
    match g
    case None => AllPass(s, involved)
    case Some(Err(e)) => e == Internal && exists a :: FirstBarred(s, involved, a) && Head(s, a).None?
    case Some(Ok(Rejected(FrozenAccount(a)))) => FirstBarred(s, involved, a) && Head(s, a).Some? && Head(s, a).value.IsFrozen()
    case Some(Ok(Rejected(ClosedAccount(a)))) =>
      FirstBarred(s, involved, a) && Head(s, a).Some? && Head(s, a).value.IsClosed() && !Head(s, a).value.IsFrozen()
    case _ => false
  }

  lemma {:induction false} LifecycleDecides(s: State, involved: seq<AccountId>)
    ensures LifecycleVerdict(s, involved, LifecycleGuard(s, involved))
  {
    if involved != [] {
      var rest := involved[1..];
      LifecycleDecides(s, rest);
      if Passes(s, involved[0]) {
        forall a | FirstBarred(s, rest, a) ensures FirstBarred(s, involved, a) {
          var i :| 0 <= i < |rest| && rest[i] == a && !Passes(s, a) && forall j :: 0 <= j < i ==> Passes(s, rest[j]);
          assert involved[i + 1] == a;
          assert forall j :: 0 < j < i + 1 ==> involved[j] == rest[j - 1];
        }
        assert forall i :: 1 <= i < |involved| ==> involved[i] == rest[i - 1];
      } else {
        assert FirstBarred(s, involved, involved[0]);
      }
    }
  }

  lemma {:induction false} SpendDecides(s: State, consume: seq<PostingId>)
    ensures match DoubleSpendGuard(s, consume)
      case None => forall i :: 0 <= i < |consume| ==> consume[i] in s.active
      case Some(g) => exists id :: FirstInactive(s, consume, id) && g == Ok(Rejected(DoubleSpend(id)))
  {
    if consume != [] {
      var rest := consume[1..];
      SpendDecides(s, rest);
      if consume[0] in s.active {
        assert forall i :: 1 <= i < |consume| ==> consume[i] == rest[i - 1];
        if id :| FirstInactive(s, rest, id) && DoubleSpendGuard(s, rest) == Some(Ok(Rejected(DoubleSpend(id)))) {
          var i :| 0 <= i < |rest| && rest[i] == id && id !in s.active && forall j :: 0 <= j < i ==> rest[j] in s.active;
          assert consume[i + 1] == id;
        }
      } else {
        assert FirstInactive(s, consume, consume[0]);
      }
    }
  }

  /** The order of the guards, and what each says: a known transfer is answered with its
      receipt; then the first barred account decides; then the first spent posting. */
  lemma GuardDecides(s: State, req: CommitRequest)
    ensures var g := Guard(s, req);
      if req.transferId in s.transfers then g == Some(Ok(AlreadyCommitted(s.transfers[req.transferId].receipt)))
      else if !AllPass(s, req.involved) then g.Some? && LifecycleVerdict(s, req.involved, g)
      else if exists i :: 0 <= i < |req.consume| && req.consume[i] !in s.active
      then exists id :: FirstInactive(s, req.consume, id) && g == Some(Ok(Rejected(DoubleSpend(id))))
      else g == None
  {
    LifecycleDecides(s, req.involved);
    SpendDecides(s, req.consume);
    hide LifecycleGuard, DoubleSpendGuard, Passes;
    if AllPass(s, req.involved) && LifecycleGuard(s, req.involved).Some? {
      NoneBarred(s, req.involved);
    }
  }

  lemma NoneBarred(s: State, involved: seq<AccountId>)
    requires AllPass(s, involved)
    ensures forall a :: !FirstBarred(s, involved, a)
  {
  }

  // ----- the same call twice -----

  /** A commit that is put again changes nothing, and its client has the same receipt. */
  lemma CommitTwice(s: State, req: CommitRequest, s': State, out: CommitResult, s'': State, again: CommitResult)
    requires Commits(s, req, s', out) && out == Ok(Committed(req.record.receipt)) && Guard(s, req).None?
    requires Commits(s', req, s'', again)
    ensures s'' == s' && again == Ok(AlreadyCommitted(req.record.receipt))
    ensures AnswerOf(out) == AnswerOf(again) == Ok(req.record.receipt)
  {
    hide FloorHolds, FloorSafe, FloorBreached, LifecycleGuard, DoubleSpendGuard;
  }

  /** A version lands exactly on the head it follows, and only while that is open; one that
      has landed is acknowledged, a version that skips one is refused; and neither of these
      changes the history. */
  lemma TransitionLands(s: State, next: Account, event: LedgerEvent)
    requires AccountsOk(s)
    ensures var (t, r) := CommitTransition(s, next, event);
      && (Head(s, next.id).None? <==> r == Err(Internal))
      && (r == Ok(TransitionApplied) <==> Head(s, next.id).Some? && !ClosedIn(s, next.id) && next.version == Head(s, next.id).value.version + 1)
      && (r == Ok(TransitionApplied) ==> t.accounts == s.accounts[next.id := s.accounts[next.id] + [next]])
      && (r != Ok(TransitionApplied) ==> t.accounts == s.accounts)
      && (r == Ok(AlreadyApplied) <==> Head(s, next.id).Some? && !ClosedIn(s, next.id) && next.version <= Head(s, next.id).value.version)
      && (r == Ok(TransitionRejected(AlreadyClosed(next.id))) <==> ClosedIn(s, next.id))
  {
    hide Append;
  }

  /** So a transition that is put again changes nothing. */
  lemma TransitionTwice(s: State, next: Account, event: LedgerEvent)
    requires AccountsOk(s) && CommitTransition(s, next, event).1 == Ok(TransitionApplied) && !SubjectOf(event.kind).Recurring?
    ensures var s' := CommitTransition(s, next, event).0;
      CommitTransition(s', next, event) == (s', Ok(if next.IsClosed() then TransitionRejected(AlreadyClosed(next.id)) else AlreadyApplied))
  {
    var mid := s.(accounts := s.accounts[next.id := s.accounts[next.id] + [next]]);
    var s' := CommitTransition(s, next, event).0;
    assert s' == AppendEvent(mid, event);
    AppendedMentions(s.events, event);
    AppendBySubject(s'.events, event);
    assert Head(s', next.id) == Some(next);
    hide Append, Mentions;
  }

  lemma AppendedMentions(events: seq<LedgerEvent>, event: LedgerEvent)
    requires !SubjectOf(event.kind).Recurring?
    ensures Mentions(Append(events, event), SubjectOf(event.kind))
  {
    AppendBySubject(events, event);
    if !Mentions(events, SubjectOf(event.kind)) {
      assert (events + [event])[|events|] == event;
    }
  }

  // ----- books -----

  /** No store call changes or removes a registered book. */
  lemma BookStays(digest: Digest, past: seq<State>, step: Step, s': State, b: BookId)
    requires past != [] && StepTo(digest, past, step, s') && b in past[|past| - 1].books
    ensures b in s'.books && s'.books[b] == past[|past| - 1].books[b]
  {
    hide LoadedFrom, Acceptable, Commits, CommitTransition, Mutated, EventFor, RequestOf, Append, Reserve, Release;
    var s := past[|past| - 1];
    match step
    case DoCommit(e, l, ts) =>
      var r :| Commits(s, RequestOf(digest, e, l, ts), s', r);
      CommitBooks(s, RequestOf(digest, e, l, ts), s', r);
    case DoTransition(m, base, ts) => TransitionBooks(s, Mutated(m, base), LedgerEvent(ts, EventFor(m, base.id, base.version + 1)));
    case DoReserve(ids, rid) => ReserveMoves(s, ids, rid);
    case DoRelease(ids, rid) => ReleaseMoves(s, ids, rid);
    case _ =>
  }

  lemma CommitBooks(s: State, req: CommitRequest, s': State, r: CommitResult)
    requires Commits(s, req, s', r)
    ensures s'.books == s.books
  {
    hide FloorHolds, FloorSafe, FloorBreached, Guard, Append, Put, PutAbsent;
  }

  lemma TransitionBooks(s: State, next: Account, event: LedgerEvent)
    ensures CommitTransition(s, next, event).0.books == s.books
  {
    hide Append;
  }

  /** So in every run a book keeps the policy it was first registered with. */
  lemma {:induction false} BooksFinal(digest: Digest, states: seq<State>, steps: seq<Step>, i: nat, j: nat, b: BookId)
    requires IsRun(digest, states, steps) && i <= j < |states| && b in states[i].books
    ensures b in states[j].books && states[j].books[b] == states[i].books[b]
  {
    hide StepTo;
    if i < j {
      BooksFinal(digest, states, steps, i, j - 1, b);
      assert StepTo(digest, states[..j], steps[j - 1], states[j]);
      BookStays(digest, states[..j], steps[j - 1], states[j], b);
    }
  }

  // ----- the flag word -----

  /** Which bit of the flag word means what. */
  lemma FlagBits(a: Account)
    ensures a.IsFrozen() <==> HasBit(a.flags, 0)
    ensures a.IsClosed() <==> HasBit(a.flags, 1)
    ensures InflightBit(a.flags) <==> HasBit(a.flags, 2)
    ensures a.ForbidsOverdraft() <==> HasBit(a.flags, 3)
  {
    HighBit(a.flags, 1);
    HighBit(a.flags, 2);
    HighBit(a.flags / 2, 1);
    HighBit(a.flags, 3);
    HighBit(a.flags / 2, 2);
    HighBit(a.flags / 2 / 2, 1);
  }

  lemma HighBit(x: nat, k: nat)
    requires k > 0
    ensures HasBit(x, k) == HasBit(x / 2, k - 1) && HasBit(x, 0) == (x % 2 == 1) && HasBit(x / 2, 0) == ((x / 2) % 2 == 1)
  {
  }

  /** A lifecycle change sets or clears its own bits and no other. */
  lemma LifecycleBits(m: Lifecycle, a: Account, k: nat)
    requires a.version + 1 < TWO64
    ensures HasBit(Mutated(m, a).flags, k) <==>
      match k
      case 0 => m == Lifecycle.Freeze
      case 1 => m == Lifecycle.Close || HasBit(a.flags, 1)
      case _ => HasBit(a.flags, k)
  {
    var f, g := a.flags, Mutated(m, a).flags;
    FlagBits(a);
    FlagBits(Mutated(m, a));
    if k >= 2 {
      assert g / 2 / 2 == f / 2 / 2;
      HighBit(f, k);
      HighBit(g, k);
      HighBit(f / 2, k - 1);
      HighBit(g / 2, k - 1);
      hide HasBit;
    }
  }
}

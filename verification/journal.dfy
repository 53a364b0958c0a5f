/** Where the log comes from: which call stored a transfer or appended an event, and with what
    time (crates/kuatia/src/ledger/commit.rs, crates/kuatia/src/ledger/lifecycle.rs). */
module Journal {
  import opened Wrappers
  import opened Domain
  import opened Amounts
  import opened Events
  import opened Store
  import opened Canonical
  import opened Validate
  import opened Runs
  import opened RunProofs
  import Balance

  /** The event a call writes, if it writes one: its own subject at its own clock reading. */
  predicate Writes(digest: Digest, step: Step, event: LedgerEvent) {
    match step
    case DoCommit(e, _, ts) => event == LedgerEvent(ts, TransferCommitted(digest(EnvelopeBytes(e))))
    case DoTransition(m, base, ts) =>
      && event.timestamp == ts
      && (match m
         case Freeze => event.kind.AccountFrozen? && event.kind.account == base.id && event.kind.version == base.version + 1
         case Unfreeze => event.kind.AccountUnfrozen? && event.kind.account == base.id && event.kind.version == base.version + 1
         case Close => event.kind.AccountClosed? && event.kind.account == base.id && event.kind.version == base.version + 1)
    case DoAppendCreated(a, ts) => event == LedgerEvent(ts, AccountCreated(a))
    case DoCreateAccount(_) => false
    case DoReserve(_, _) => false
    case DoRelease(_, _) => false
    case DoCreateBook(_) => false
    case DoCachePoint(_, _, _) => false
  }

  lemma AppendedOnly(events: seq<LedgerEvent>, event: LedgerEvent)
    ensures Append(events, event) == events || Append(events, event) == events + [event]
  {
    hide DedupKey, HasKey;
  }

  /** A step leaves the events alone or appends its own. */
  lemma StepWrites(digest: Digest, past: seq<State>, step: Step, s': State, event: LedgerEvent)
    requires past != [] && StepTo(digest, past, step, s') && History(past)
    requires event in s'.events && event !in past[|past| - 1].events
    ensures Writes(digest, step, event)
  {
    hide Inv, Grows, LoadedFrom, Acceptable, History, Append;
    var s := past[|past| - 1];
    match step
    case DoCommit(e, l, ts) =>
      CommitWrites(digest, s, e, l, ts, s', event);
    case DoTransition(m, base, ts) =>
      var own := LedgerEvent(ts, EventFor(m, base.id, base.version + 1));
      TransitionWrites(s, Mutated(m, base), own, event);
    case DoAppendCreated(a, ts) =>
      AppendedOnly(s.events, LedgerEvent(ts, AccountCreated(a)));
    case DoReserve(ids, rid) => HoldsWriteNothing(s, ids, rid);
    case DoRelease(ids, rid) => HoldsWriteNothing(s, ids, rid);
    case _ =>
  }

  lemma {:induction false} HoldsWriteNothing(s: State, ids: seq<PostingId>, rid: ReservationId)
    ensures Reserve(s, ids, rid).0.events == s.events && Release(s, ids, rid).0.events == s.events
  {
    if ids != [] {
      HoldsWriteNothing(s, ids[..|ids| - 1], rid);
    }
  }

  lemma TransitionWrites(s: State, next: Account, own: LedgerEvent, event: LedgerEvent)
    requires event in CommitTransition(s, next, own).0.events && event !in s.events
    ensures event == own
  {
    AppendedOnly(s.events, own);
    hide Append;
  }

  lemma CommitWrites(digest: Digest, s: State, e: Envelope, l: Loaded, ts: i64, s': State, event: LedgerEvent)
    requires exists r :: Commits(s, RequestOf(digest, e, l, ts), s', r)
    requires event in s'.events && event !in s.events
    ensures event == LedgerEvent(ts, TransferCommitted(digest(EnvelopeBytes(e))))
  {
    var r :| Commits(s, RequestOf(digest, e, l, ts), s', r);
    hide Guard, FloorHolds, FloorSafe, FloorBreached, Append, Put, PutAbsent, EnvelopeBytes, Owners;
    AppendedOnly(s.events, RequestOf(digest, e, l, ts).event);
  }

  /** Every event was written by a call about its subject, at the time of that call. */
  lemma {:induction false} EventOrigin(digest: Digest, states: seq<State>, steps: seq<Step>, n: nat, event: LedgerEvent) returns (i: nat)
    requires IsRun(digest, states, steps) && n < |states| && event in states[n].events
    ensures i < n && event !in states[i].events && event in states[i + 1].events && Writes(digest, steps[i], event)
  {
    hide Inv, Grows, StepTo, Writes, History;
    if n > 0 {
      if event in states[n - 1].events {
        i := EventOrigin(digest, states, steps, n - 1, event);
      } else {
        i := n - 1;
        RunHistory(digest, states, steps, i);
        var past := states[..i + 1];
        assert past[|past| - 1] == states[i];
        StepWrites(digest, past, steps[i], states[n], event);
      }
    }
  }

  /** Every stored transfer was filed by a commit of its own envelope: the record is that
      envelope, its receipt and the time of the call, and the event of that time is in the log. */
  lemma {:induction false} TransferOrigin(digest: Digest, states: seq<State>, steps: seq<Step>, n: nat, t: EnvelopeId) returns (i: nat)
    requires IsRun(digest, states, steps) && n < |states| && t in states[n].transfers
    ensures i < n && steps[i].DoCommit? && t !in states[i].transfers && t == digest(EnvelopeBytes(steps[i].envelope))
    ensures states[n].transfers[t] == EnvelopeRecord(steps[i].envelope, Receipt(t), steps[i].ts)
    ensures LedgerEvent(steps[i].ts, TransferCommitted(t)) in states[n].events
  {
    hide Inv, Grows, StepTo, Ready, EnvelopeBytes;
    assert n > 0;
    Balance.StepShape(digest, states, steps, n - 1);
    RunSafe(digest, states, steps, n - 1, n);
    if t in states[n - 1].transfers {
      i := TransferOrigin(digest, states, steps, n - 1, t);
      KeptBetween(states[n - 1], states[n], t);
    } else {
      i := n - 1;
      FiledByCommit(digest, states[i], steps[i], states[n], t);
    }
  }

  lemma KeptBetween(s: State, s': State, t: EnvelopeId)
    requires Grows(s, s') && t in s.transfers
    ensures t in s'.transfers && s'.transfers[t] == s.transfers[t] && s.events <= s'.events
  {
  }

  lemma FiledByCommit(digest: Digest, s: State, step: Step, s': State, t: EnvelopeId)
    requires Inv(s) && t !in s.transfers && t in s'.transfers
    requires !step.DoCommit? ==> s'.transfers == s.transfers
    requires step.DoCommit? ==> s' == s || s' == Applied(s, RequestOf(digest, step.envelope, step.loaded, step.ts))
    ensures step.DoCommit? && t == digest(EnvelopeBytes(step.envelope))
    ensures s'.transfers[t] == EnvelopeRecord(step.envelope, Receipt(t), step.ts)
    ensures LedgerEvent(step.ts, TransferCommitted(t)) in s'.events
  {
    hide EnvelopeBytes, Owners, Put, PutAbsent;
    NewTransferUnmentioned(s, t);
    AppendBySubject(s.events, LedgerEvent(step.ts, TransferCommitted(t)));
    hide Append, Inv;
  }

  lemma NewTransferUnmentioned(s: State, t: EnvelopeId)
    requires Inv(s) && t !in s.transfers
    ensures !Mentions(s.events, OfTransfer(t))
  {
    assert EventsOk(s);
  }
}

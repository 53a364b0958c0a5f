/** Why an intent is refused: the holding that cannot give what the movements take from it
    (crates/kuatia-core/src/posting_resolution.rs). */
module Refusals {
  import opened Wrappers
  import opened Domain
  import opened Amounts
  import opened Store
  import opened Validate
  import opened Resolution
  import opened ResolutionTheorems
  import opened Intents
  import opened StoreLaws

  lemma {:induction false} FirstUncovered(ds: seq<Debit>, av: Availability, accounts: Accounts)
    requires CoverAll(ds, av, accounts).Err?
    ensures exists i :: 0 <= i < |ds| && CoverIn(ds[i], av, accounts) == Err(CoverAll(ds, av, accounts).error)
  {
    hide CoverIn;
    var front := ds[..|ds| - 1];
    if CoverAll(front, av, accounts).Err? {
      FirstUncovered(front, av, accounts);
      var i :| 0 <= i < |front| && CoverIn(front[i], av, accounts) == Err(CoverAll(front, av, accounts).error);
      assert ds[i] == front[i];
    } else {
      assert CoverIn(ds[|ds| - 1], av, accounts).Err?;
    }
  }

  /** What one holding cannot give: its positive active postings do not add up in 64 bits, or
      they are fewer than the debit and the account may not go negative. */
  ghost predicate CannotGive(s: State, k: Key, requested: int, e: ResolveError) {
    exists ps ::
      && Offers(s, k, ps)
      && match e
         case InsufficientFunds(available, wanted) =>
           && wanted == requested > available == SumValues(Positives(ps))
           && Head(s, k.account).Some? && HasBit(Head(s, k.account).value.flags, 3)
         case ResolveOverflow => !Fits(SumValues(Positives(ps)))
  }

  /** An intent that is refused names the net debit of one of its sources, and a holding that
      cannot give it. */
  lemma IntentRefused(s: State, t: Transfer, draft: MovementDraft, av: Availability, accounts: Accounts, e: ResolveError)
    requires RefusesIntent(s, t, draft, av, accounts, e)
    ensures exists k :: NetDebit(t.movements, k) > 0 && CannotGive(s, k, NetDebit(t.movements, k), e)
  {
    hide NetDebit, CoverAll, Offers, Positives, SumValues, CoverIn, IntentLoaded, CannotGive;
    FirstUncovered(draft.debits, av, accounts);
    var i :| 0 <= i < |draft.debits| && CoverIn(draft.debits[i], av, accounts) == Err(e);
    var d := draft.debits[i];
    DebitRefused(s, draft, av, accounts, i, e);
    assert d.amount == NetDebit(t.movements, d.key) > 0;
  }

  lemma DebitRefused(s: State, draft: MovementDraft, av: Availability, accounts: Accounts, i: nat, e: ResolveError)
    requires IntentLoaded(s, draft, av, accounts) && i < |draft.debits| && draft.debits[i].amount > 0
    requires CoverIn(draft.debits[i], av, accounts) == Err(e)
    ensures CannotGive(s, draft.debits[i].key, draft.debits[i].amount, e)
  {
    hide Offers, Positives, SumValues, HasBit;
    var d := draft.debits[i];
    var account := Head(s, d.key.account).value;
    FlagBits(account);
    CoverVerdict(d, av[d.key], !account.ForbidsOverdraft());
    CoverError(d, av[d.key], !account.ForbidsOverdraft(), e);
    hide Cover;
    assert Offers(s, d.key, av[d.key]);
  }

  lemma CoverError(d: Debit, avail: seq<Posting>, mayOverdraw: bool, e: ResolveError)
    requires Cover(d, avail, mayOverdraw) == Err(e)
    ensures e == ResolveOverflow || e == InsufficientFunds(SumValues(Positives(avail)), d.amount)
  {
    hide Positives, SumValues, RunningFits;
  }
}

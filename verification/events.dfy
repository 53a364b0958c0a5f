/** Ledger events and the key that makes appending one idempotent
    (crates/kuatia-storage/src/events.rs). */
module Events {
  import opened Wrappers
  import opened Domain
  import opened Decimal

  datatype EventKind =
    | TransferCommitted(transferId: EnvelopeId)
    | AccountCreated(account: AccountId)
    | AccountFrozen(account: AccountId, version: u64)
    | AccountUnfrozen(account: AccountId, version: u64)
    | AccountClosed(account: AccountId, version: u64)

  datatype LedgerEvent = LedgerEvent(timestamp: i64, kind: EventKind)

  /** What an event is about: a transfer, or one version of one account. */
  datatype Subject = OfTransfer(tid: EnvelopeId) | OfVersion(account: AccountId, version: u64) | Recurring

  function SubjectOf(k: EventKind): Subject {
    match k
    case TransferCommitted(t) => OfTransfer(t)
    case AccountFrozen(a, v) => OfVersion(a, v)
    case AccountUnfrozen(a, v) => OfVersion(a, v)
    case AccountClosed(a, v) => OfVersion(a, v)
    case AccountCreated(_) => Recurring
  }

  function HexDigit(d: nat): (c: char)
    requires d < 16
    ensures IsDigit(c) || 'a' <= c <= 'f'
  {
    if d < 10 then '0' + d as char else 'a' + (d - 10) as char
  }

  function Hex(b: seq<u8>): (s: string)
    ensures |s| == 2 * |b|
    ensures forall i :: 0 <= i < |s| ==> IsDigit(s[i]) || 'a' <= s[i] <= 'f'
  {
    if b == [] then "" else [HexDigit(b[0] / 16), HexDigit(b[0] % 16)] + Hex(b[1..])
  }

  function VersionKey(a: AccountId, v: u64): string {
    "acct:" + (IntString(a.id) + ":" + (IntString(a.sub) + ":" + Digits(v)))
  }

  /** `event_dedup_key`. */
  function DedupKey(k: EventKind): Option<string> {
    match k
    case TransferCommitted(t) => Some(Hex(t))
    case AccountFrozen(a, v) => Some(VersionKey(a, v))
    case AccountUnfrozen(a, v) => Some(VersionKey(a, v))
    case AccountClosed(a, v) => Some(VersionKey(a, v))
    case AccountCreated(_) => None
  }

  /** Spelled out: a transfer's key is its hash in hexadecimal, a version's is the account's
      two numbers and the version, in decimal. */
  lemma KeyExamples(t: EnvelopeId)
    requires t[0] == 0xA7
    ensures DedupKey(TransferCommitted(t)).value[..2] == "a7"
    ensures DedupKey(EventKind.AccountFrozen(AccountId(1, -2), 3)) == Some("acct:1:-2:3")
  {
    assert Digits(1) == "1" && Digits(2) == "2" && Digits(3) == "3";
    assert VersionKey(AccountId(1, -2), 3) == "acct:1:-2:3";
  }

  lemma {:induction false} HexInjective(a: seq<u8>, b: seq<u8>)
    requires Hex(a) == Hex(b)
    ensures a == b
  {
    if a != [] {
      assert |b| == |a|;
      assert Hex(a)[0] == Hex(b)[0] && Hex(a)[1] == Hex(b)[1];
      assert Hex(a)[2..] == Hex(a[1..]) && Hex(b)[2..] == Hex(b[1..]);
      HexInjective(a[1..], b[1..]);
      assert a[0] / 16 == b[0] / 16 && a[0] % 16 == b[0] % 16;
      assert a == [a[0]] + a[1..] && b == [b[0]] + b[1..];
    }
  }

  function FirstColon(s: string): nat {
    if s == "" || s[0] == ':' then 0 else 1 + FirstColon(s[1..])
  }

  lemma {:induction false} FirstColonEndsField(a: string, x: string)
    requires ':' !in a
    ensures FirstColon(a + ":" + x) == |a|
  {
    if a != "" {
      assert (a + ":" + x)[1..] == a[1..] + ":" + x;
      FirstColonEndsField(a[1..], x);
    }
  }

  /** A field with no colon in it ends at the first colon. */
  lemma FieldEnds(a: string, x: string, b: string, y: string)
    requires ':' !in a && ':' !in b
    requires a + ":" + x == b + ":" + y
    ensures a == b && x == y
  {
    var s, t := a + ":" + x, b + ":" + y;
    FirstColonEndsField(a, x);
    FirstColonEndsField(b, y);
    assert a == s[..|a|] && b == t[..|b|];
    assert x == s[|a| + 1..] && y == t[|b| + 1..];
  }

  lemma NoColon(v: int)
    ensures ':' !in IntString(v)
  {
    assert AllDigits(Digits(if v < 0 then -v else v));
  }

  lemma VersionKeyInjective(a: AccountId, v: u64, b: AccountId, w: u64)
    requires VersionKey(a, v) == VersionKey(b, w)
    ensures a == b && v == w
  {
    var ra := IntString(a.sub) + ":" + Digits(v);
    var rb := IntString(b.sub) + ":" + Digits(w);
    assert VersionKey(a, v)[5..] == IntString(a.id) + ":" + ra;
    assert VersionKey(b, w)[5..] == IntString(b.id) + ":" + rb;
    NoColon(a.id);
    NoColon(b.id);
    FieldEnds(IntString(a.id), ra, IntString(b.id), rb);
    NoColon(a.sub);
    NoColon(b.sub);
    FieldEnds(IntString(a.sub), Digits(v), IntString(b.sub), Digits(w));
    IntStringInjective(a.id, b.id);
    IntStringInjective(a.sub, b.sub);
    ValueDigits(v);
    ValueDigits(w);
  }

  lemma HexIsNoVersionKey(t: EnvelopeId, a: AccountId, v: u64)
    ensures Hex(t) != VersionKey(a, v)
  {
    assert VersionKey(a, v)[3] == 't' && Hex(t)[3] != 't';
  }

  /** The key identifies the subject: two events share a key exactly when both are
      about the same transfer or the same account version, and only a creation
      event has none. */
  lemma DedupKeyIdentifies(k: EventKind, l: EventKind)
    ensures DedupKey(k).None? <==> SubjectOf(k).Recurring?
    ensures DedupKey(k).Some? ==> (DedupKey(k) == DedupKey(l) <==> SubjectOf(k) == SubjectOf(l))
  {
    if DedupKey(k).Some? && DedupKey(k) == DedupKey(l) {
      match SubjectOf(k)
      case OfTransfer(t) =>
        match SubjectOf(l) {
          case OfTransfer(u) => HexInjective(t, u);
          case OfVersion(b, w) => HexIsNoVersionKey(t, b, w);
        }
      case OfVersion(a, v) =>
        match SubjectOf(l) {
          case OfTransfer(u) => HexIsNoVersionKey(u, a, v);
          case OfVersion(b, w) => VersionKeyInjective(a, v, b, w);
        }
    }
  }

  predicate HasKey(events: seq<LedgerEvent>, key: string) {
    exists i :: 0 <= i < |events| && DedupKey(events[i].kind) == Some(key)
  }

  /** Append `event` unless its key is already in the log. */
  function Append(events: seq<LedgerEvent>, event: LedgerEvent): seq<LedgerEvent> {
    var key := DedupKey(event.kind);
    if key.Some? && HasKey(events, key.value) then events else events + [event]
  }

  predicate Mentions(events: seq<LedgerEvent>, s: Subject) {
    exists i :: 0 <= i < |events| && SubjectOf(events[i].kind) == s
  }

  /** Deduplication, read through the subject instead of the key. */
  lemma AppendBySubject(events: seq<LedgerEvent>, event: LedgerEvent)
    ensures Append(events, event) ==
      if !SubjectOf(event.kind).Recurring? && Mentions(events, SubjectOf(event.kind)) then events
      else events + [event]
  {
    var key := DedupKey(event.kind);
    forall i | 0 <= i < |events|
      ensures key.Some? ==> (DedupKey(events[i].kind) == key <==> SubjectOf(events[i].kind) == SubjectOf(event.kind))
    {
      DedupKeyIdentifies(event.kind, events[i].kind);
    }
    DedupKeyIdentifies(event.kind, event.kind);
  }
}

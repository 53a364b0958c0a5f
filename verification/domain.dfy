/** The ledger's vocabulary: fixed-width integers, identifiers, postings,
    envelopes, accounts and books. */
module Domain {
  import opened Wrappers

  const TWO16: int := 0x1_0000
  const TWO32: int := 0x1_0000_0000
  const TWO63: int := 0x8000_0000_0000_0000
  const TWO64: int := 0x1_0000_0000_0000_0000

  type u8 = x: int | 0 <= x < 256
  type u16 = x: int | 0 <= x < TWO16
  type u32 = x: int | 0 <= x < TWO32
  type u64 = x: int | 0 <= x < TWO64
  type i64 = x: int | -TWO63 <= x < TWO63

  /** A monetary amount under the default 64-bit backing. */
  type Cent = i64

  const CENT_MAX: int := TWO63 - 1

  predicate Fits(x: int) { -TWO63 <= x < TWO63 }

  datatype Overflow = Overflow

  /** Checked arithmetic: the exact result when it is representable, an error
      otherwise. */
  function Checked(x: int): (r: Result<Cent, Overflow>)
    ensures r.Ok? <==> Fits(x)
    ensures r.Ok? ==> r.value == x
  {
    if Fits(x) then Ok(x) else Err(Overflow)
  }

  type Bytes32 = b: seq<u8> | |b| == 32 witness seq(32, i => 0)

  type EnvelopeId = Bytes32
  type AssetId = u32
  type BookId = i64
  type ReservationId = i64

  /** Double SHA-256 is a parameter of the model: every statement holds for any
      digest function. */
  type Digest = seq<u8> -> Bytes32

  datatype AccountId = AccountId(id: i64, sub: i64) {
    function Base(): AccountId { AccountId(id, 0) }
  }

  datatype PostingId = PostingId(transfer: EnvelopeId, index: u16)

  datatype Posting = Posting(id: PostingId, owner: AccountId, asset: AssetId, value: Cent)

  datatype NewPosting =
    NewPosting(owner: AccountId, asset: AssetId, value: Cent, payer: Option<AccountId>)

  datatype AccountSnapshotId = AccountSnapshotId(account: AccountId, snapshotId: Bytes32)

  /** A metadata map in its iteration order. */
  datatype MetaEntry = MetaEntry(key: seq<u8>, value: seq<u8>)
  type Metadata = seq<MetaEntry>

  datatype Envelope = Envelope(
    consumes: seq<PostingId>,
    creates: seq<NewPosting>,
    snapshots: seq<AccountSnapshotId>,
    book: BookId,
    metadata: Metadata)

  datatype Movement = Movement(from: AccountId, to: AccountId, asset: AssetId, amount: Cent)

  datatype Transfer = Transfer(movements: seq<Movement>, book: BookId, metadata: Metadata)

  datatype Receipt = Receipt(transferId: EnvelopeId)

  // Account flags are a 32-bit word; each flag is one bit of it.
  predicate FrozenBit(flags: u32) { flags % 2 == 1 }
  predicate ClosedBit(flags: u32) { (flags / 2) % 2 == 1 }
  predicate InflightBit(flags: u32) { (flags / 2 / 2) % 2 == 1 }
  predicate DebitMustNotExceedCreditBit(flags: u32) { (flags / 2 / 2 / 2) % 2 == 1 }

  function SetFrozen(flags: u32): (r: u32)
    ensures FrozenBit(r) && r / 2 == flags / 2
    ensures ClosedBit(r) == ClosedBit(flags)
    ensures DebitMustNotExceedCreditBit(r) == DebitMustNotExceedCreditBit(flags)
  {
    assert !FrozenBit(flags) ==> (flags + 1) / 2 == flags / 2;
    if FrozenBit(flags) then flags else flags + 1
  }

  function ClearFrozen(flags: u32): (r: u32)
    ensures !FrozenBit(r) && r / 2 == flags / 2
    ensures ClosedBit(r) == ClosedBit(flags)
    ensures DebitMustNotExceedCreditBit(r) == DebitMustNotExceedCreditBit(flags)
  {
    assert FrozenBit(flags) ==> (flags - 1) / 2 == flags / 2;
    if FrozenBit(flags) then flags - 1 else flags
  }

  function SetClosed(flags: u32): (r: u32)
    ensures ClosedBit(r) && FrozenBit(r) == FrozenBit(flags) && r / 2 / 2 == flags / 2 / 2
    ensures DebitMustNotExceedCreditBit(r) == DebitMustNotExceedCreditBit(flags)
  {
    assert !ClosedBit(flags) ==> (flags + 2) / 2 == flags / 2 + 1 && (flags / 2 + 1) / 2 == flags / 2 / 2;
    if ClosedBit(flags) then flags else flags + 2
  }

  datatype Account =
    Account(id: AccountId, version: u64, flags: u32, book: BookId, metadata: Metadata)
  {
    predicate IsFrozen() { FrozenBit(flags) }
    predicate IsClosed() { ClosedBit(flags) }
    predicate ForbidsOverdraft() { DebitMustNotExceedCreditBit(flags) }
  }

  datatype BookPolicy =
    BookPolicy(allowedAssets: seq<AssetId>, allowedFlags: u32, allowedAccounts: seq<AccountId>)

  datatype Book = Book(id: BookId, policy: BookPolicy)

  datatype EnvelopeRecord = EnvelopeRecord(envelope: Envelope, receipt: Receipt, createdAt: i64)

  predicate Distinct<T(==)>(s: seq<T>) {
    forall i, j :: 0 <= i < j < |s| ==> s[i] != s[j]
  }
}

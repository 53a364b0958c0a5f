/** Canonical serialization, the preimage of every content hash
    (crates/kuatia-types/src/canonical.rs), and the decoder that shows it loses
    nothing but the payer annotation. */
module Canonical {
  import opened Wrappers
  import opened Domain
  import opened Bytes

  const CANONICAL_VERSION: u8 := 5

  // ----- encoders -----

  function CentBytes(v: int): (b: seq<u8>)
    ensures |b| == 16
  {
    BeSigned(16, v)
  }

  function AccountIdBytes(a: AccountId): seq<u8> {
    BeSigned(8, a.id) + BeSigned(8, a.sub)
  }

  function SnapshotBytes(s: AccountSnapshotId): seq<u8> {
    AccountIdBytes(s.account) + s.snapshotId
  }

  function PostingIdBytes(p: PostingId): seq<u8> {
    p.transfer + Be(2, p.index)
  }

  /** The payer is provenance and is left out of the preimage. */
  function NewPostingBytes(np: NewPosting): seq<u8> {
    AccountIdBytes(np.owner) + Be(4, np.asset) + CentBytes(np.value)
  }

  function MetaEntryBytes(m: MetaEntry): seq<u8> {
    Be(4, |m.key|) + m.key + Be(4, |m.value|) + m.value
  }

  /** A 32-bit count followed by the items. */
  function ListBytes<T>(xs: seq<T>, enc: T -> seq<u8>): seq<u8> {
    Be(4, |xs|) + EncodeItems(xs, enc)
  }

  function EnvelopeBytes(e: Envelope): seq<u8> {
    [CANONICAL_VERSION]
    + (ListBytes(e.consumes, PostingIdBytes)
    + (ListBytes(e.creates, NewPostingBytes)
    + (ListBytes(e.snapshots, SnapshotBytes)
    + (BeSigned(8, e.book)
    + ListBytes(e.metadata, MetaEntryBytes)))))
  }

  function AccountBytes(a: Account): seq<u8> {
    [CANONICAL_VERSION]
    + (AccountIdBytes(a.id)
    + (Be(8, a.version)
    + (Be(4, a.flags)
    + (BeSigned(8, a.book)
    + ListBytes(a.metadata, MetaEntryBytes)))))
  }

  function EnvelopeIdOf(digest: Digest, e: Envelope): EnvelopeId { digest(EnvelopeBytes(e)) }

  function AccountHash(digest: Digest, a: Account): Bytes32 { digest(AccountBytes(a)) }

  /** `Envelope::to_bytes`: one buffer, filled section by section. */
  method EnvelopeToBytes(e: Envelope) returns (buf: seq<u8>)
    ensures buf == EnvelopeBytes(e)
  {
    hide Be, BeSigned, PostingIdBytes, NewPostingBytes, SnapshotBytes, MetaEntryBytes;
    buf := [CANONICAL_VERSION];
    buf := AppendList(buf, e.consumes, PostingIdBytes);
    buf := AppendList(buf, e.creates, NewPostingBytes);
    buf := AppendList(buf, e.snapshots, SnapshotBytes);
    buf := buf + BeSigned(8, e.book);
    buf := AppendList(buf, e.metadata, MetaEntryBytes);
  }

  method AccountToBytes(a: Account) returns (buf: seq<u8>)
    ensures buf == AccountBytes(a)
  {
    hide Be, BeSigned, AccountIdBytes, MetaEntryBytes;
    buf := [CANONICAL_VERSION];
    buf := buf + AccountIdBytes(a.id);
    buf := buf + Be(8, a.version);
    buf := buf + Be(4, a.flags);
    buf := buf + BeSigned(8, a.book);
    buf := AppendList(buf, a.metadata, MetaEntryBytes);
  }

  method AppendList<T>(start: seq<u8>, xs: seq<T>, enc: T -> seq<u8>) returns (buf: seq<u8>)
    ensures buf == start + ListBytes(xs, enc)
  {
    buf := start + Be(4, |xs|);
    for i := 0 to |xs|
      invariant buf == start + Be(4, |xs|) + EncodeItems(xs[..i], enc)
    {
      buf := buf + enc(xs[i]);
      assert xs[..i + 1][..i] == xs[..i];
    }
    assert xs[..|xs|] == xs;
  }

  // ----- the decoder -----

  function TakeAccountId(b: seq<u8>): Parsed<AccountId> {
    var (id, b1) :- TakeInt(8, b);
    var (sub, b2) :- TakeInt(8, b1);
    if Fits(id) && Fits(sub) then Got(AccountId(id, sub), b2) else Malformed
  }

  function TakePostingId(b: seq<u8>): Parsed<PostingId> {
    var (t, b1) :- Take(32, b);
    var (i, b2) :- TakeUint(2, b1);
    if i < TWO16 then Got(PostingId(t, i), b2) else Malformed
  }

  function TakeSnapshot(b: seq<u8>): Parsed<AccountSnapshotId> {
    var (a, b1) :- TakeAccountId(b);
    var (h, b2) :- Take(32, b1);
    Got(AccountSnapshotId(a, h), b2)
  }

  function TakeNewPosting(b: seq<u8>): Parsed<NewPosting> {
    var (o, b1) :- TakeAccountId(b);
    var (a, b2) :- TakeUint(4, b1);
    var (v, b3) :- TakeInt(16, b2);
    if a < TWO32 && Fits(v) then Got(NewPosting(o, a, v, None), b3) else Malformed
  }

  function TakeMetaEntry(b: seq<u8>): Parsed<MetaEntry> {
    var (kn, b1) :- TakeUint(4, b);
    var (k, b2) :- Take(kn, b1);
    var (vn, b3) :- TakeUint(4, b2);
    var (v, b4) :- Take(vn, b3);
    Got(MetaEntry(k, v), b4)
  }

  function TakeList<T>(b: seq<u8>, dec: seq<u8> -> Parsed<T>): Parsed<seq<T>> {
    var (n, b1) :- TakeUint(4, b);
    DecodeItems(n, b1, dec)
  }

  function TakeEnvelope(b: seq<u8>): Parsed<Envelope> {
    var (version, b0) :- TakeUint(1, b);
    var (consumes, b1) :- TakeList(b0, TakePostingId);
    var (creates, b2) :- TakeList(b1, TakeNewPosting);
    var (snapshots, b3) :- TakeList(b2, TakeSnapshot);
    var (book, b4) :- TakeInt(8, b3);
    var (metadata, b5) :- TakeList(b4, TakeMetaEntry);
    if version == CANONICAL_VERSION && Fits(book)
    then Got(Envelope(consumes, creates, snapshots, book, metadata), b5)
    else Malformed
  }

  function TakeAccount(b: seq<u8>): Parsed<Account> {
    var (version, b0) :- TakeUint(1, b);
    var (id, b1) :- TakeAccountId(b0);
    var (v, b2) :- TakeUint(8, b1);
    var (flags, b3) :- TakeUint(4, b2);
    var (book, b4) :- TakeInt(8, b3);
    var (metadata, b5) :- TakeList(b4, TakeMetaEntry);
    if version == CANONICAL_VERSION && v < TWO64 && flags < TWO32 && Fits(book)
    then Got(Account(id, v, flags, book, metadata), b5)
    else Malformed
  }

  // ----- each decoder undoes its encoder -----

  lemma AccountIdAppend(a: AccountId, rest: seq<u8>)
    ensures TakeAccountId(AccountIdBytes(a) + rest) == Got(a, rest)
  {
    Pow256Values();
    var tail := BeSigned(8, a.sub) + rest;
    assert AccountIdBytes(a) + rest == BeSigned(8, a.id) + tail;
    TakeIntAppend(8, a.id, tail);
    TakeIntAppend(8, a.sub, rest);
  }

  lemma PostingIdAppend(p: PostingId, rest: seq<u8>)
    ensures TakePostingId(PostingIdBytes(p) + rest) == Got(p, rest)
  {
    Pow256Values();
    var tail := Be(2, p.index) + rest;
    assert PostingIdBytes(p) + rest == p.transfer + tail;
    TakeAppend(p.transfer, tail);
    TakeUintAppend(2, p.index, rest);
  }

  lemma SnapshotAppend(s: AccountSnapshotId, rest: seq<u8>)
    ensures TakeSnapshot(SnapshotBytes(s) + rest) == Got(s, rest)
  {
    var tail := s.snapshotId + rest;
    assert SnapshotBytes(s) + rest == AccountIdBytes(s.account) + tail;
    AccountIdAppend(s.account, tail);
    TakeAppend(s.snapshotId, rest);
  }

  lemma NewPostingAppend(np: NewPosting, rest: seq<u8>)
    ensures TakeNewPosting(NewPostingBytes(np) + rest) == Got(np.(payer := None), rest)
  {
    Pow256Values();
    var t2 := CentBytes(np.value) + rest;
    var t1 := Be(4, np.asset) + t2;
    assert NewPostingBytes(np) + rest == AccountIdBytes(np.owner) + t1;
    AccountIdAppend(np.owner, t1);
    TakeUintAppend(4, np.asset, t2);
    TakeIntAppend(16, np.value, rest);
  }

  predicate EntryFits(m: MetaEntry) { |m.key| < TWO32 && |m.value| < TWO32 }

  lemma MetaEntryAppend(m: MetaEntry, rest: seq<u8>)
    requires EntryFits(m)
    ensures TakeMetaEntry(MetaEntryBytes(m) + rest) == Got(m, rest)
  {
    Pow256Values();
    var t3 := m.value + rest;
    var t2 := Be(4, |m.value|) + t3;
    var t1 := m.key + t2;
    assert MetaEntryBytes(m) + rest == Be(4, |m.key|) + t1;
    TakeUintAppend(4, |m.key|, t1);
    TakeAppend(m.key, t2);
    TakeUintAppend(4, |m.value|, t3);
    TakeAppend(m.value, rest);
  }

  lemma ListAppend<T(!new)>(xs: seq<T>, rest: seq<u8>, enc: T -> seq<u8>, dec: seq<u8> -> Parsed<T>, ok: T -> bool)
    requires |xs| < TWO32 && Undoes(enc, dec, ok)
    requires forall i :: 0 <= i < |xs| ==> ok(xs[i])
    ensures TakeList(ListBytes(xs, enc) + rest, dec) == Got(xs, rest)
  {
    Pow256Values();
    var tail := EncodeItems(xs, enc) + rest;
    assert ListBytes(xs, enc) + rest == Be(4, |xs|) + tail;
    TakeUintAppend(4, |xs|, tail);
    DecodeItemsAppend(xs, rest, enc, dec, ok);
  }

  lemma MetadataAppend(md: Metadata, rest: seq<u8>)
    requires |md| < TWO32 && forall i :: 0 <= i < |md| ==> EntryFits(md[i])
    ensures TakeList(ListBytes(md, MetaEntryBytes) + rest, TakeMetaEntry) == Got(md, rest)
  {
    forall m: MetaEntry, r: seq<u8> | EntryFits(m)
      ensures TakeMetaEntry(MetaEntryBytes(m) + r) == Got(m, r)
    {
      MetaEntryAppend(m, r);
    }
    ListAppend(md, rest, MetaEntryBytes, TakeMetaEntry, EntryFits);
  }

  // ----- unique decodability -----

  /** What the content hash commits to: everything but the payers. */
  function Unpaid(creates: seq<NewPosting>): seq<NewPosting> {
    seq(|creates|, i requires 0 <= i < |creates| => creates[i].(payer := None))
  }

  function Economic(e: Envelope): Envelope { e.(creates := Unpaid(e.creates)) }

  lemma {:induction false} UnpaidSameBytes(creates: seq<NewPosting>)
    ensures EncodeItems(creates, NewPostingBytes) == EncodeItems(Unpaid(creates), NewPostingBytes)
  {
    if creates != [] {
      var n := |creates| - 1;
      UnpaidSameBytes(creates[..n]);
      assert Unpaid(creates)[..n] == Unpaid(creates[..n]);
      assert NewPostingBytes(creates[n]) == NewPostingBytes(creates[n].(payer := None));
    }
  }

  /** Every length the format prefixes with 32 bits fits in 32 bits. */
  predicate Encodable(e: Envelope) {
    && |e.consumes| < TWO32 && |e.creates| < TWO32 && |e.snapshots| < TWO32 && |e.metadata| < TWO32
    && forall i :: 0 <= i < |e.metadata| ==> EntryFits(e.metadata[i])
  }

  predicate EncodableAccount(a: Account) {
    |a.metadata| < TWO32 && forall i :: 0 <= i < |a.metadata| ==> EntryFits(a.metadata[i])
  }

  lemma ConsumesAppend(ids: seq<PostingId>, rest: seq<u8>)
    requires |ids| < TWO32
    ensures TakeList(ListBytes(ids, PostingIdBytes) + rest, TakePostingId) == Got(ids, rest)
  {
    forall p: PostingId, r: seq<u8> ensures TakePostingId(PostingIdBytes(p) + r) == Got(p, r) {
      PostingIdAppend(p, r);
    }
    ListAppend(ids, rest, PostingIdBytes, TakePostingId, p => true);
  }

  lemma CreatesAppend(creates: seq<NewPosting>, rest: seq<u8>)
    requires |creates| < TWO32
    ensures TakeList(ListBytes(creates, NewPostingBytes) + rest, TakeNewPosting)
         == Got(Unpaid(creates), rest)
  {
    var ok := (np: NewPosting) => np.payer.None?;
    forall np: NewPosting, r: seq<u8> | ok(np)
      ensures TakeNewPosting(NewPostingBytes(np) + r) == Got(np, r)
    {
      NewPostingAppend(np, r);
    }
    UnpaidSameBytes(creates);
    ListAppend(Unpaid(creates), rest, NewPostingBytes, TakeNewPosting, ok);
  }

  lemma SnapshotsAppend(snaps: seq<AccountSnapshotId>, rest: seq<u8>)
    requires |snaps| < TWO32
    ensures TakeList(ListBytes(snaps, SnapshotBytes) + rest, TakeSnapshot) == Got(snaps, rest)
  {
    forall s: AccountSnapshotId, r: seq<u8> ensures TakeSnapshot(SnapshotBytes(s) + r) == Got(s, r) {
      SnapshotAppend(s, r);
    }
    ListAppend(snaps, rest, SnapshotBytes, TakeSnapshot, s => true);
  }

  lemma VersionAppend(rest: seq<u8>)
    ensures TakeUint(1, [CANONICAL_VERSION] + rest) == Got(CANONICAL_VERSION as nat, rest)
  {
    assert ([CANONICAL_VERSION] + rest)[..1] == [CANONICAL_VERSION];
    assert FromBe([CANONICAL_VERSION]) == CANONICAL_VERSION;
    assert ([CANONICAL_VERSION] + rest)[1..] == rest;
  }

  lemma Assoc(a: seq<u8>, b: seq<u8>, c: seq<u8>)
    ensures (a + b) + c == a + (b + c)
  {
  }

  lemma EnvelopeSections(e: Envelope, rest: seq<u8>)
    ensures EnvelopeBytes(e) + rest ==
      [CANONICAL_VERSION]
      + (ListBytes(e.consumes, PostingIdBytes)
      + (ListBytes(e.creates, NewPostingBytes)
      + (ListBytes(e.snapshots, SnapshotBytes)
      + (BeSigned(8, e.book)
      + (ListBytes(e.metadata, MetaEntryBytes) + rest)))))
  {
    var md := ListBytes(e.metadata, MetaEntryBytes);
    var bk := BeSigned(8, e.book) + md;
    var sn := ListBytes(e.snapshots, SnapshotBytes) + bk;
    var cr := ListBytes(e.creates, NewPostingBytes) + sn;
    var co := ListBytes(e.consumes, PostingIdBytes) + cr;
    Assoc([CANONICAL_VERSION], co, rest);
    Assoc(ListBytes(e.consumes, PostingIdBytes), cr, rest);
    Assoc(ListBytes(e.creates, NewPostingBytes), sn, rest);
    Assoc(ListBytes(e.snapshots, SnapshotBytes), bk, rest);
    Assoc(BeSigned(8, e.book), md, rest);
  }

  /** The bytes of an envelope, followed by anything, decode to the envelope with
      its payers erased and leave exactly what followed. */
  lemma EnvelopeRoundTrip(e: Envelope, rest: seq<u8>)
    requires Encodable(e)
    ensures TakeEnvelope(EnvelopeBytes(e) + rest) == Got(Economic(e), rest)
  {
    Pow256Values();
    var md := ListBytes(e.metadata, MetaEntryBytes) + rest;
    var bk := BeSigned(8, e.book) + md;
    var sn := ListBytes(e.snapshots, SnapshotBytes) + bk;
    var cr := ListBytes(e.creates, NewPostingBytes) + sn;
    var co := ListBytes(e.consumes, PostingIdBytes) + cr;
    assert EnvelopeBytes(e) + rest == [CANONICAL_VERSION] + co by { EnvelopeSections(e, rest); }
    VersionAppend(co);
    ConsumesAppend(e.consumes, cr);
    CreatesAppend(e.creates, sn);
    SnapshotsAppend(e.snapshots, bk);
    TakeIntAppend(8, e.book, md);
    MetadataAppend(e.metadata, rest);
  }

  /** Two envelopes share their canonical bytes exactly when they differ at most
      in payer annotations, and no envelope's bytes are a prefix of another's. */
  lemma EnvelopeBytesIdentify(a: Envelope, b: Envelope)
    requires Encodable(a) && Encodable(b)
    ensures EnvelopeBytes(a) == EnvelopeBytes(b) <==> Economic(a) == Economic(b)
    ensures EnvelopeBytes(a) <= EnvelopeBytes(b) ==> EnvelopeBytes(a) == EnvelopeBytes(b)
  {
    assert forall e: Envelope :: EnvelopeBytes(e) + [] == EnvelopeBytes(e);
    EnvelopeRoundTrip(a, []);
    EnvelopeRoundTrip(b, []);
    if Economic(a) == Economic(b) {
      UnpaidSameBytes(a.creates);
      UnpaidSameBytes(b.creates);
      assert a.creates == [] <==> b.creates == [] by { assert |Unpaid(a.creates)| == |Unpaid(b.creates)|; }
    }
    if EnvelopeBytes(a) <= EnvelopeBytes(b) {
      var rest := EnvelopeBytes(b)[|EnvelopeBytes(a)|..];
      assert EnvelopeBytes(b) == EnvelopeBytes(a) + rest;
      EnvelopeRoundTrip(a, rest);
    }
  }

  lemma AccountRoundTrip(a: Account, rest: seq<u8>)
    requires EncodableAccount(a)
    ensures TakeAccount(AccountBytes(a) + rest) == Got(a, rest)
  {
    Pow256Values();
    var md := ListBytes(a.metadata, MetaEntryBytes) + rest;
    var bk := BeSigned(8, a.book) + md;
    var fl := Be(4, a.flags) + bk;
    var ve := Be(8, a.version) + fl;
    var id := AccountIdBytes(a.id) + ve;
    assert AccountBytes(a) + rest == [CANONICAL_VERSION] + id;
    VersionAppend(id);
    AccountIdAppend(a.id, ve);
    TakeUintAppend(8, a.version, fl);
    TakeUintAppend(4, a.flags, bk);
    TakeIntAppend(8, a.book, md);
    MetadataAppend(a.metadata, rest);
  }

  /** An account snapshot's bytes identify the account version completely. */
  lemma AccountBytesIdentify(a: Account, b: Account)
    requires EncodableAccount(a) && EncodableAccount(b)
    ensures AccountBytes(a) == AccountBytes(b) <==> a == b
  {
    assert forall x: Account :: AccountBytes(x) + [] == AccountBytes(x);
    AccountRoundTrip(a, []);
    AccountRoundTrip(b, []);
  }

  // ----- amounts under either backing width -----

  datatype Backing = I64 | I128

  predicate Holds(w: Backing, v: int) {
    match w
    case I64 => Fits(v)
    case I128 => FitsSigned(16, v)
  }

  /** `Cent::from_canonical_bytes` under backing `w`. */
  function FromCanonicalBytes(w: Backing, b: seq<u8>): Result<int, Overflow>
    requires |b| == 16
  {
    var v := FromBeSigned(b);
    if Holds(w, v) then Ok(v) else Err(Overflow)
  }

  /** An amount written under one width reads back under the other exactly when it
      fits there, and every 16-byte string that reads back is the encoding of what
      it reads as: the bytes carry no trace of the width. */
  lemma CentBytesWidthFree(w: Backing, w': Backing, v: int, b: seq<u8>)
    requires Holds(w, v) && |b| == 16
    ensures FromCanonicalBytes(w', CentBytes(v)) == if Holds(w', v) then Ok(v) else Err(Overflow)
    ensures FromCanonicalBytes(w', b).Ok? ==> CentBytes(FromCanonicalBytes(w', b).value) == b
  {
    Pow256Values();
    SignedRoundTrip(16, v);
    SignedSurjective(b);
  }

  // ----- one of each, byte by byte -----

  function Zeros(n: nat): (b: seq<u8>) { seq(n, i => 0) }

  lemma {:induction false} SmallBe(n: nat, v: nat)
    requires v < 256 && n > 0
    ensures Be(n, v) == Zeros(n - 1) + [v]
  {
    if n > 1 {
      SmallBe(n - 1, 0);
      assert Zeros(n - 1) == Zeros(n - 2) + [0];
    }
  }

  lemma SmallSigned(n: nat, v: nat)
    requires v < 256 && n > 0
    ensures BeSigned(n, v) == Zeros(n - 1) + [v]
  {
    SmallBe(n, v);
    Above(n);
    ModSigned(v, Pow256(n));
  }

  lemma Above(n: nat)
    requires n > 0
    ensures Pow256(n) >= 256
  {
    assert Pow256(n) == 256 * Pow256(n - 1);
  }

  lemma {:induction false} MinusOne(n: nat)
    ensures Be(n, Pow256(n) - 1) == seq(n, i => 255)
  {
    if n > 0 {
      MinusOne(n - 1);
      assert (Pow256(n) - 1) / 256 == Pow256(n - 1) - 1 && (Pow256(n) - 1) % 256 == 255;
      assert seq(n, i => 255) == seq(n - 1, i => 255) + [255];
    }
  }

  /** The layout of an account on an example: version byte, account and subaccount, version,
      flags and book, each at its width, and the counted metadata. */
  lemma AccountExample()
    ensures AccountBytes(Account(AccountId(1, 2), 3, 12, 4, [MetaEntry([6, 7], [8])])) ==
      [5]
      + (Zeros(7) + [1] + (Zeros(7) + [2])
      + (Zeros(7) + [3]
      + ([0, 0, 0, 12]
      + (Zeros(7) + [4]
      + ([0, 0, 0, 1] + ([0, 0, 0, 2] + [6, 7] + [0, 0, 0, 1] + [8]))))))
  {
    hide Be, BeSigned, Zeros, MetaEntryBytes, ListBytes;
    SmallSigned(8, 1);
    SmallSigned(8, 2);
    SmallBe(8, 3);
    FourBytes();
    SmallSigned(8, 4);
    EntryExample();
    OneItem(MetaEntry([6, 7], [8]), MetaEntryBytes);
  }

  lemma FourBytes()
    ensures forall v: nat :: v < 256 ==> Be(4, v) == [0, 0, 0, v]
  {
    forall v: nat | v < 256 ensures Be(4, v) == [0, 0, 0, v] {
      SmallBe(4, v);
      assert Zeros(3) == [0, 0, 0];
    }
  }

  lemma OneItem<T>(x: T, enc: T -> seq<u8>)
    ensures ListBytes([x], enc) == [0, 0, 0, 1] + enc(x)
  {
    FourBytes();
    assert [x][..0] == [];
    assert EncodeItems([x], enc) == enc(x);
  }

  /** And of an envelope: the counted consumes, creates and snapshots, the book and the
      counted metadata.  A negative value is in two's complement, and the payer is left out. */
  lemma EnvelopeExample(t: Bytes32, h: Bytes32)
    ensures EnvelopeBytes(Envelope(
        [PostingId(t, 258)], [NewPosting(AccountId(1, 2), 3, -1, Some(AccountId(9, 9)))], [AccountSnapshotId(AccountId(4, 0), h)], 5,
        [MetaEntry([6, 7], [8])])) ==
      [5]
      + ([0, 0, 0, 1] + (t + [1, 2])
      + ([0, 0, 0, 1] + (Zeros(7) + [1] + (Zeros(7) + [2]) + [0, 0, 0, 3] + seq(16, i => 255))
      + ([0, 0, 0, 1] + (Zeros(7) + [4] + (Zeros(7) + [0]) + h)
      + (Zeros(7) + [5]
      + ([0, 0, 0, 1] + ([0, 0, 0, 2] + [6, 7] + [0, 0, 0, 1] + [8]))))))
  {
    hide Be, BeSigned, PostingIdBytes, NewPostingBytes, SnapshotBytes, MetaEntryBytes, Zeros, ListBytes;
    ConsumeExample(t);
    CreateExample();
    SnapshotExample(h);
    EntryExample();
    SmallSigned(8, 5);
    OneItem(PostingId(t, 258), PostingIdBytes);
    OneItem(NewPosting(AccountId(1, 2), 3, -1, Some(AccountId(9, 9))), NewPostingBytes);
    OneItem(AccountSnapshotId(AccountId(4, 0), h), SnapshotBytes);
    OneItem(MetaEntry([6, 7], [8]), MetaEntryBytes);
  }

  lemma ConsumeExample(t: Bytes32)
    ensures PostingIdBytes(PostingId(t, 258)) == t + [1, 2]
  {
    assert Be(1, 1) == [1];
    assert Be(2, 258) == [1, 2];
  }

  lemma CreateExample()
    ensures NewPostingBytes(NewPosting(AccountId(1, 2), 3, -1, Some(AccountId(9, 9)))) ==
      Zeros(7) + [1] + (Zeros(7) + [2]) + [0, 0, 0, 3] + seq(16, i => 255)
  {
    hide Be, BeSigned, Zeros;
    SmallSigned(8, 1);
    SmallSigned(8, 2);
    FourBytes();
    AllOnes();
  }

  lemma AllOnes()
    ensures CentBytes(-1) == seq(16, i => 255)
  {
    hide Be, Pow256;
    MinusOne(16);
    ModSigned(-1, Pow256(16));
  }

  lemma SnapshotExample(h: Bytes32)
    ensures SnapshotBytes(AccountSnapshotId(AccountId(4, 0), h)) == Zeros(7) + [4] + (Zeros(7) + [0]) + h
  {
    hide BeSigned, Zeros;
    SmallSigned(8, 4);
    SmallSigned(8, 0);
  }

  lemma EntryExample()
    ensures MetaEntryBytes(MetaEntry([6, 7], [8])) == [0, 0, 0, 2] + [6, 7] + [0, 0, 0, 1] + [8]
  {
    hide Be;
    FourBytes();
  }
}

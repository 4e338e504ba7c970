/**
  Enumeration across the FFI: the loop that overwrites the caller's fixed-size entries in
  place, the single integer that carries a count or a status back, and the Go side that
  reads both.
  */
module Enumerate {
  import opened Integers
  import opened Statuses
  import opened SymbolicBytes
  import opened Handles
  import opened X25519
  import opened AlgorithmCodec
  import opened KeyTypes
  import opened Listing

  const MAX_ALGORITHM_LEN: nat := 128
  const MAX_PUBLIC_KEY_LEN: nat := 2048

  datatype KpsKeyInfo = KpsKeyInfo(
    uuid: Uuid,
    algorithm: Bytes, algorithmLen: nat,
    pubKey: Bytes, pubKeyLen: nat,
    bindingPubKey: Bytes, bindingPubKeyLen: nat,
    remainingSecs: nat)

  function Zeros(n: nat): (b: Bytes)
    ensures |b| == n
  {
    seq(n, _ => Lit(0))
  }

  const EMPTY := KpsKeyInfo(0, Zeros(MAX_ALGORITHM_LEN), 0, Zeros(MAX_PUBLIC_KEY_LEN), 0,
                            Zeros(MAX_PUBLIC_KEY_LEN), 0, 0)

  // ---------- one entry ----------

  predicate Fits(m: KeyMetadata) {
    && m.spec.KemWithBindingPub?
    && |EncodeAlgorithm(m.spec.algo)| <= MAX_ALGORITHM_LEN
  }

  /** The entry, cut to its length fields, is the record's data; the rest of each buffer is zero. */
  predicate Describes(e: KpsKeyInfo, m: KeyMetadata, now: nat)
    requires Fits(m)
  {
    && e.uuid == m.id
    && |e.algorithm| == MAX_ALGORITHM_LEN && |e.pubKey| == |e.bindingPubKey| == MAX_PUBLIC_KEY_LEN
    && e.algorithmLen <= MAX_ALGORITHM_LEN && e.pubKeyLen <= MAX_PUBLIC_KEY_LEN
    && e.bindingPubKeyLen <= MAX_PUBLIC_KEY_LEN
    && e.algorithm[..e.algorithmLen] == EncodeAlgorithm(m.spec.algo)
    && e.pubKey[..e.pubKeyLen] == m.spec.kemPublicKey
    && e.bindingPubKey[..e.bindingPubKeyLen] == m.spec.bindingPublicKey
    && (forall i :: e.algorithmLen <= i < MAX_ALGORITHM_LEN ==> e.algorithm[i] == Lit(0))
    && (forall i :: e.pubKeyLen <= i < MAX_PUBLIC_KEY_LEN ==> e.pubKey[i] == Lit(0))
    && (forall i :: e.bindingPubKeyLen <= i < MAX_PUBLIC_KEY_LEN ==> e.bindingPubKey[i] == Lit(0))
    && e.remainingSecs == RemainingSecs(m.deleteAfter, now)
  }

  function Overwrite(buffer: Bytes, data: Bytes): (r: Bytes)
    requires |data| <= |buffer|
    ensures |r| == |buffer| && r[..|data|] == data
    ensures forall i :: |data| <= i < |r| ==> r[i] == buffer[i]
  {
    data + buffer[|data|..]
  }

  function Entry(m: KeyMetadata, now: nat): (e: KpsKeyInfo)
    requires Fits(m)
    ensures Describes(e, m, now)
  {
    var algo := EncodeAlgorithm(m.spec.algo);
    var pk, bpk := m.spec.kemPublicKey, m.spec.bindingPublicKey;
    KpsKeyInfo(m.id,
               Overwrite(Zeros(MAX_ALGORITHM_LEN), algo), |algo|,
               Overwrite(Zeros(MAX_PUBLIC_KEY_LEN), pk), |pk|,
               Overwrite(Zeros(MAX_PUBLIC_KEY_LEN), bpk), |bpk|,
               RemainingSecs(m.deleteAfter, now))
  }

  // ---------- the loop ----------

  /** What the KPS registry holds: KEM records of the supported suite. */
  predicate KemRegistry(keys: Keys) {
    && WellKeyed(keys)
    && forall id :: id in keys ==> keys[id].meta.spec.KemWithBindingPub? && SupportedSuite(keys[id].meta.spec.algo)
  }

  /** Everything on the page up to and including i can be written. */
  predicate FitsUpTo(page: Metas, i: nat)
    requires i < |page|
  {
    forall j :: 0 <= j <= i ==> Fits(page[j])
  }

  /** Overwrites entries up to the first record that does not fit, and nothing after it. */
  method WriteEntries(metas: Metas, times: seq<nat>, entries: array<KpsKeyInfo>) returns (ok: bool)
    requires |metas| <= entries.Length == |times|
    modifies entries
    ensures ok <==> forall m :: m in metas ==> Fits(m)
    ensures forall i :: 0 <= i < entries.Length ==>
              entries[i] == if i < |metas| && FitsUpTo(metas, i) then Entry(metas[i], times[i]) else old(entries[i])
  {
    for i := 0 to |metas|
      invariant forall j :: 0 <= j < i ==> Fits(metas[j]) && entries[j] == Entry(metas[j], times[j])
      invariant forall j :: i <= j < entries.Length ==> entries[j] == old(entries[j])
    {
      var meta := metas[i];
      if !meta.spec.KemWithBindingPub? {
        assert !Fits(meta) && meta in metas;
        return false;
      }
      if |EncodeAlgorithm(meta.spec.algo)| > MAX_ALGORITHM_LEN {
        assert !Fits(meta) && meta in metas;
        return false;
      }
      entries[i] := Entry(meta, times[i]);
    }
    ok := true;
  }

  /** `times[i]` is the clock reading taken for entry i. The call fails exactly when some record on
      the page does not fit. */
  method EnumerateInto(keys: Keys, order: seq<Uuid>, now: nat, times: seq<nat>, entries: array<KpsKeyInfo>, offset: nat)
    returns (r: Result<(nat, bool)>, ghost l: Metas)
    requires WellKeyed(keys) && Enumerates(order, keys) && |times| == entries.Length
    modifies entries
    ensures IsListing(keys, now, l)
    ensures var page := Page(l, offset, entries.Length);
            && r == (if forall m :: m in page ==> Fits(m) then Ok((|page|, offset + |page| < |l|))
                     else Err(InternalError))
            && forall i :: 0 <= i < entries.Length ==>
                 entries[i] == if i < |page| && FitsUpTo(page, i) then Entry(page[i], times[i]) else old(entries[i])
  {
    var metas, total := ListAllKeys(keys, order, now, offset, entries.Length);
    l :| IsListing(keys, now, l);
    var ok := WriteEntries(metas, times, entries);
    r := if ok then Ok((|metas|, offset + |metas| < total)) else Err(InternalError);
  }

  /** Nothing in a KPS registry fails to fit. */
  lemma KemRecordsFit(keys: Keys, now: nat, l: Metas)
    requires KemRegistry(keys) && IsListing(keys, now, l)
    ensures forall m :: m in l ==> Fits(m)
  {
    forall m | m in l
      ensures Fits(m)
    {
      SupportedSuiteIsSixBytes(m.spec.algo);
    }
  }

  // ---------- the returned integer ----------

  function ReturnCode(r: Result<nat>): int {
    match r
    case Ok(count) => AsInt32(count)
    case Err(status) => -(Code(status) as int)
  }

  /** The flag goes back by a pointer of its own. */
  function Counted(r: Result<(nat, bool)>): Result<nat> {
    match r
    case Ok((count, _)) => Ok(count)
    case Err(status) => Err(status)
  }

  datatype GoReply = Entries(count: nat) | Failure(code: int)

  /** The Go side: negative is a status, but status Success is no error and yields no entries. */
  function ReadCode(rc: int): GoReply {
    if rc < 0 then (if -rc == Code(Success) then Entries(0) else Failure(-rc)) else Entries(rc)
  }

  function Meant(r: Result<nat>): GoReply {
    match r
    case Ok(count) => Entries(count)
    case Err(status) => Failure(Code(status))
  }

  /** The integer is read as it was meant exactly when the count is an int32 and the status an error. */
  lemma ReturnCodeFaithfulIff(r: Result<nat>)
    ensures ReadCode(ReturnCode(r)) == Meant(r) <==>
            match r
            case Ok(count) => count < 0x8000_0000
            case Err(status) => status != Unspecified && status != Success
  {
  }

  /** What an enumeration with an int32 limit can return stays inside that domain. */
  lemma EnumerationCodesAreFaithful(l: Metas, offset: nat, limit: Int32)
    requires 0 < limit
    ensures var r := Ok(|Page(l, offset, limit)|); ReadCode(ReturnCode(r)) == Meant(r)
    ensures ReadCode(ReturnCode(Err(InternalError))) == Meant(Err(InternalError))
  {
    assert |Page(l, offset, limit)| <= limit;
    ReturnCodeFaithfulIff(Ok(|Page(l, offset, limit)|));
    ReturnCodeFaithfulIff(Err(InternalError));
  }

  // ---------- the Go caller ----------

  datatype KemKeyInfo = KemKeyInfo(id: Uuid, algorithm: HpkeAlgorithm, kemPubKey: Bytes, remainingSecs: nat)

  datatype GoResult<T> = Value(value: T) | PlainError | StatusError(code: int)

  function InfoOf(m: KeyMetadata, now: nat): KemKeyInfo
    requires Fits(m)
  {
    KemKeyInfo(m.id, m.spec.algo, m.spec.kemPublicKey, RemainingSecs(m.deleteAfter, now))
  }

  /** Each buffer is read up to its length field; None if the algorithm does not decode. */
  function ReadEntry(e: KpsKeyInfo): Option<KemKeyInfo>
    requires e.algorithmLen <= |e.algorithm| && e.pubKeyLen <= |e.pubKey|
  {
    match DecodeAlgorithm(e.algorithm[..e.algorithmLen])
    case None => None
    case Some(algo) => Some(KemKeyInfo(e.uuid, algo, e.pubKey[..e.pubKeyLen], e.remainingSecs))
  }

  lemma EntryRoundTrip(m: KeyMetadata, now: nat)
    requires Fits(m)
    ensures ReadEntry(Entry(m, now)) == Some(InfoOf(m, now))
  {
    AlgorithmRoundTrip(m.spec.algo);
  }

  /** The Go loop. Its error return for an algorithm that does not decode is never taken, since
      every entry that the core wrote decodes. */
  method ReadEntries(entries: array<KpsKeyInfo>, count: nat, ghost page: Metas, ghost times: seq<nat>)
    returns (infos: seq<KemKeyInfo>)
    requires count == |page| <= entries.Length == |times|
    requires forall i :: 0 <= i < count ==> Fits(page[i]) && entries[i] == Entry(page[i], times[i])
    ensures |infos| == count
    ensures forall i :: 0 <= i < count ==> infos[i] == InfoOf(page[i], times[i])
  {
    infos := [];
    for i := 0 to count
      invariant |infos| == i
      invariant forall j :: 0 <= j < i ==> infos[j] == InfoOf(page[j], times[j])
    {
      EntryRoundTrip(page[i], times[i]);
      var info := ReadEntry(entries[i]);
      infos := infos + [info.value];
    }
  }

  /** The infos are those of the page, in its order. */
  predicate ShowsPage(infos: seq<KemKeyInfo>, page: Metas, times: seq<nat>) {
    && |infos| == |page| <= |times|
    && forall i :: 0 <= i < |page| ==> Fits(page[i]) && infos[i] == InfoOf(page[i], times[i])
  }

  lemma PageFits(keys: Keys, now: nat, l: Metas, offset: nat, limit: nat)
    requires KemRegistry(keys) && IsListing(keys, now, l)
    ensures var page := Page(l, offset, limit);
            (forall m :: m in page ==> Fits(m)) && forall i :: 0 <= i < |page| ==> FitsUpTo(page, i)
  {
    KemRecordsFit(keys, now, l);
    var page := Page(l, offset, limit);
    assert forall m :: m in page ==> m in l;
    assert forall i :: 0 <= i < |page| ==> page[i] in page;
  }

  /** The exported call: over a KPS registry the integer is the count, and every entry up to it is written. */
  method FfiEnumerate(keys: Keys, order: seq<Uuid>, now: nat, times: seq<nat>, entries: array<KpsKeyInfo>, offset: nat)
    returns (rc: int, hasMore: bool, ghost l: Metas)
    requires KemRegistry(keys) && Enumerates(order, keys) && |times| == entries.Length < 0x8000_0000
    modifies entries
    ensures IsListing(keys, now, l)
    ensures var page := Page(l, offset, entries.Length);
            && rc == |page| && hasMore == (offset + |page| < |l|)
            && forall i :: 0 <= i < |page| ==> Fits(page[i]) && entries[i] == Entry(page[i], times[i])
  {
    var reply;
    reply, l := EnumerateInto(keys, order, now, times, entries, offset);
    PageFits(keys, now, l, offset, entries.Length);
    hasMore := reply.Ok? && reply.value.1;
    rc := ReturnCode(Counted(reply));
  }

  /** For every int32 limit and offset: arguments out of range are refused, anything else returns
      the page of the listing and whether records remain. */
  method EnumerateKemKeys(keys: Keys, order: seq<Uuid>, now: nat, times: seq<nat>, limit: Int32, offset: Int32)
    returns (r: GoResult<(seq<KemKeyInfo>, bool)>)
    requires KemRegistry(keys) && Enumerates(order, keys)
    requires limit > 0 ==> |times| == limit
    ensures r.PlainError? <==> limit <= 0 || offset < 0
    ensures !r.StatusError?
    ensures r.Value? ==> exists l :: IsListing(keys, now, l)
    ensures r.Value? ==> forall l :: IsListing(keys, now, l) ==>
              ShowsPage(r.value.0, Page(l, offset, limit), times) && r.value.1 == (offset + |r.value.0| < |l|)
  {
    if limit <= 0 || offset < 0 {
      return PlainError;
    }
    var entries := new KpsKeyInfo[limit](_ => EMPTY);
    var rc, hasMore, l := FfiEnumerate(keys, order, now, times, entries, offset);
    var read := ReadCode(rc);
    var infos := ReadEntries(entries, if read.Entries? then read.count else 0, Page(l, offset, limit), times);
    forall l' | IsListing(keys, now, l')
      ensures l' == l
    {
      ListingUnique(keys, now, l', l);
    }
    r := match read
      case Failure(code) => StatusError(code)
      case Entries(_) => Value((infos, hasMore));
  }
}

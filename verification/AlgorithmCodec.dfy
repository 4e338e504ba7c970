/**
  The algorithm message as it crosses the FFI: three enum fields in protobuf encoding, written
  on the Rust side and read back on the Go side.
  */
module AlgorithmCodec {
  import opened Integers
  import opened Statuses
  import opened SymbolicBytes
  import opened X25519

  const MAX_VARINT_LEN: nat := 10

  // ---------- writing ----------

  function Varint(n: nat): (s: seq<byte>)
    ensures |s| > 0
  {
    if n < 128 then [n] else [128 + n % 128] + Varint(n / 128)
  }

  /** Default values are not written. */
  function EncodeField(tag: byte, value: Int32): seq<byte> {
    if value == 0 then [] else [tag] + Varint(AsUint64(value))
  }

  function EncodeAlgorithm(a: HpkeAlgorithm): Bytes {
    Literal(EncodeField(8, a.kem) + EncodeField(16, a.kdf) + EncodeField(24, a.aead))
  }

  lemma SupportedSuiteIsSixBytes(a: HpkeAlgorithm)
    requires SupportedSuite(a)
    ensures EncodeAlgorithm(a) == Literal([8, 1, 16, 1, 24, 1])
  {
    assert Varint(1) == [1];
    assert EncodeField(8, 1) + EncodeField(16, 1) + EncodeField(24, 1) == [8, 1, 16, 1, 24, 1];
  }

  // ---------- reading ----------

  function Pow128(k: nat): nat {
    if k == 0 then 1 else 128 * Pow128(k - 1)
  }

  /** A number of at most `room` bytes, and how many bytes it took. */
  function ReadVarint(s: seq<byte>, room: nat): (r: Option<(nat, nat)>)
    ensures r.Some? ==> 0 < r.value.1 <= |s|
  {
    if |s| == 0 || room == 0 then None
    else if s[0] < 128 then Some((s[0], 1))
    else
      match ReadVarint(s[1..], room - 1)
      case None => None
      case Some((high, used)) => Some((s[0] - 128 + 128 * high, used + 1))
  }

  function SetField(a: HpkeAlgorithm, tag: nat, value: Int32): Option<HpkeAlgorithm> {
    if tag == 8 then Some(a.(kem := value))
    else if tag == 16 then Some(a.(kdf := value))
    else if tag == 24 then Some(a.(aead := value))
    else None
  }

  /** Fields in any order, a later one overriding an earlier one, on top of `a`. */
  function DecodeFields(s: seq<byte>, a: HpkeAlgorithm): Option<HpkeAlgorithm>
    decreases |s|
  {
    if |s| == 0 then Some(a)
    else
      match ReadVarint(s, MAX_VARINT_LEN)
      case None => None
      case Some((tag, used)) =>
        match ReadVarint(s[used..], MAX_VARINT_LEN)
        case None => None
        case Some((value, more)) =>
          if value > MAX_UINT64 || SetField(a, tag, AsInt32(value)).None? then None
          else DecodeFields(s[used..][more..], SetField(a, tag, AsInt32(value)).value)
  }

  function DecodeAlgorithm(b: Bytes): Option<HpkeAlgorithm> {
    if forall i :: 0 <= i < |b| ==> b[i].Lit? then
      DecodeFields(seq(|b|, i requires 0 <= i < |b| => (assert b[i].Lit?; b[i].value)), HpkeAlgorithm(0, 0, 0))
    else None
  }

  // ---------- there and back ----------

  lemma {:induction false} VarintRoundTrip(n: nat, rest: seq<byte>, room: nat)
    requires 0 < room && n < Pow128(room)
    ensures ReadVarint(Varint(n) + rest, room) == Some((n, |Varint(n)|))
  {
    if n >= 128 {
      assert n / 128 < Pow128(room - 1);
      VarintRoundTrip(n / 128, rest, room - 1);
      assert (Varint(n) + rest)[1..] == Varint(n / 128) + rest;
    }
  }

  lemma TenBytesAreEnough()
    ensures Pow128(MAX_VARINT_LEN) > MAX_UINT64
  {
    assert Pow128(5) == 0x8_0000_0000;
  }

  /** Reading a written field and going on. */
  lemma FieldRoundTrip(tag: byte, value: Int32, rest: seq<byte>, a: HpkeAlgorithm)
    requires tag in {8, 16, 24} && (value == 0 ==> SetField(a, tag, 0) == Some(a))
    ensures DecodeFields(EncodeField(tag, value) + rest, a) == DecodeFields(rest, SetField(a, tag, value).value)
  {
    if value == 0 {
      assert EncodeField(tag, value) + rest == rest;
    } else {
      assert EncodeField(tag, value) + rest == [tag] + Varint(AsUint64(value)) + rest;
      PresentField(tag, AsUint64(value), rest, a);
    }
  }

  lemma PresentField(tag: byte, value: nat, rest: seq<byte>, a: HpkeAlgorithm)
    requires tag in {8, 16, 24} && value <= MAX_UINT64
    ensures DecodeFields([tag] + Varint(value) + rest, a) == DecodeFields(rest, SetField(a, tag, AsInt32(value)).value)
  {
    var number := Varint(value);
    var s := [tag] + number + rest;
    assert ReadVarint(s, MAX_VARINT_LEN) == Some((tag as nat, 1));
    assert s[1..] == number + rest && s[1..][|number|..] == rest;
    TenBytesAreEnough();
    VarintRoundTrip(value, rest, MAX_VARINT_LEN);
  }

  /** Every algorithm message, supported or not, is read back as it was written. */
  lemma AlgorithmRoundTrip(a: HpkeAlgorithm)
    ensures DecodeAlgorithm(EncodeAlgorithm(a)) == Some(a)
  {
    var none := HpkeAlgorithm(0, 0, 0);
    var kem, kdf, aead := EncodeField(8, a.kem), EncodeField(16, a.kdf), EncodeField(24, a.aead);
    var b := EncodeAlgorithm(a);
    assert forall i :: 0 <= i < |b| ==> b[i].Lit?;
    assert seq(|b|, i requires 0 <= i < |b| => (assert b[i].Lit?; b[i].value)) == kem + (kdf + (aead + []));
    FieldRoundTrip(8, a.kem, kdf + (aead + []), none);
    FieldRoundTrip(16, a.kdf, aead + [], none.(kem := a.kem));
    FieldRoundTrip(24, a.aead, [], none.(kem := a.kem, kdf := a.kdf));
  }
}

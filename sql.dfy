/**
 * The codec between the indexer's domain scalars and Postgres columns:
 * a 128-bit `Amount` travels as an arbitrary-precision NUMERIC (a big
 * decimal), an asset identifier as a fixed 32-byte BYTEA.
 *
 * A big integer is a Dafny `int`; its sign and its minimal little-endian
 * magnitude bytes are derived from it the way the big-integer library does.
 * A big decimal is its unscaled digits together with a scale: the value is
 * unscaled * 10^(-scale).
 */
module Sql {
  import opened Wrappers
  import opened Ints

  /** 2^120: the least magnitude whose minimal little-endian encoding has 16 bytes. */
  const TWO_120: nat := 0x100_0000_0000_0000_0000_0000_0000_0000
  /** 2^128: one more than the largest `Amount`. */
  const TWO_128: nat := 0x1_0000_0000_0000_0000_0000_0000_0000_0000

  /** An unsigned 128-bit amount. */
  type Amount = n: nat | n < TWO_128

  function Pow(base: nat, k: nat): (r: nat)
    ensures base >= 1 ==> r >= 1
  {
    if k == 0 then 1 else base * Pow(base, k - 1)
  }

  // ---------------------------------------------------------------------
  // Little-endian byte strings
  // ---------------------------------------------------------------------

  /** The number a little-endian byte string denotes: the sum of bytes[i] * 256^i. */
  function LeValue(bytes: seq<Byte>): nat {
    if |bytes| == 0 then 0 else bytes[0] + 256 * LeValue(bytes[1..])
  }

  /** The low `k` bytes of `n`, least significant first (`to_le_bytes` for a k-byte integer). */
  function FixedLe(n: nat, k: nat): (r: seq<Byte>)
    ensures |r| == k
  {
    if k == 0 then [] else [n % 256] + FixedLe(n / 256, k - 1)
  }

  /**
   * The shortest little-endian encoding of `n` without trailing zero bytes,
   * as the big-integer library produces it; zero is encoded as the single byte 0.
   */
  function MinimalLe(n: nat): (r: seq<Byte>)
    ensures |r| >= 1
  {
    if n < 256 then [n] else [n % 256] + MinimalLe(n / 256)
  }

  function Zeros(k: nat): (r: seq<Byte>)
    ensures |r| == k && forall i :: 0 <= i < k ==> r[i] == 0
  {
    if k == 0 then [] else [0] + Zeros(k - 1)
  }

  lemma {:induction false} LeValueBound(bytes: seq<Byte>)
    ensures LeValue(bytes) < Pow(256, |bytes|)
  {
    if |bytes| > 0 {
      LeValueBound(bytes[1..]);
    }
  }

  lemma {:induction false} LeValueFixedLe(n: nat, k: nat)
    requires n < Pow(256, k)
    ensures LeValue(FixedLe(n, k)) == n
  {
    if k > 0 {
      var tail := FixedLe(n / 256, k - 1);
      assert FixedLe(n, k)[1..] == tail;
      LeValueFixedLe(n / 256, k - 1);
    }
  }

  lemma {:induction false} LeValueMinimalLe(n: nat)
    ensures LeValue(MinimalLe(n)) == n
  {
    if n >= 256 {
      assert MinimalLe(n)[1..] == MinimalLe(n / 256);
      LeValueMinimalLe(n / 256);
    } else {
      assert MinimalLe(n)[1..] == [];
    }
  }

  /** The minimal encoding of `n` fits in `k` bytes exactly when n < 256^k. */
  lemma {:induction false} MinimalLeLength(n: nat, k: nat)
    requires k >= 1
    ensures |MinimalLe(n)| <= k <==> n < Pow(256, k)
  {
    if n >= 256 {
      if k == 1 {
        assert |MinimalLe(n)| == 1 + |MinimalLe(n / 256)|;
      } else {
        MinimalLeLength(n / 256, k - 1);
      }
    } else {
      assert Pow(256, k) == 256 * Pow(256, k - 1);
    }
  }

  /** Appending zero bytes at the most significant end does not change the value. */
  lemma {:induction false} LeValueZeroPadded(bytes: seq<Byte>, k: nat)
    ensures LeValue(bytes + Zeros(k)) == LeValue(bytes)
  {
    if |bytes| == 0 {
      assert bytes + Zeros(k) == Zeros(k);
      LeValueZeros(k);
    } else {
      assert (bytes + Zeros(k))[1..] == bytes[1..] + Zeros(k);
      LeValueZeroPadded(bytes[1..], k);
    }
  }

  lemma {:induction false} LeValueZeros(k: nat)
    ensures LeValue(Zeros(k)) == 0
  {
    if k > 0 {
      assert Zeros(k)[1..] == Zeros(k - 1);
      LeValueZeros(k - 1);
    }
  }

  lemma PowersOf256()
    ensures Pow(256, 15) == TWO_120 && Pow(256, 16) == TWO_128
  {
    assert Pow(256, 1) == 0x1_00;
    assert Pow(256, 2) == 0x1_00_00;
    assert Pow(256, 3) == 0x1_00_00_00;
    assert Pow(256, 4) == 0x1_00_00_00_00;
    assert Pow(256, 5) == 0x1_00_00_00_00_00;
    assert Pow(256, 6) == 0x1_00_00_00_00_00_00;
    assert Pow(256, 7) == 0x1_00_00_00_00_00_00_00;
    assert Pow(256, 8) == 0x1_00_00_00_00_00_00_00_00;
    assert Pow(256, 9) == 0x1_00_00_00_00_00_00_00_00_00;
    assert Pow(256, 10) == 0x1_00_00_00_00_00_00_00_00_00_00;
    assert Pow(256, 11) == 0x1_00_00_00_00_00_00_00_00_00_00_00;
    assert Pow(256, 12) == 0x1_00_00_00_00_00_00_00_00_00_00_00_00;
    assert Pow(256, 13) == 0x1_00_00_00_00_00_00_00_00_00_00_00_00_00;
    assert Pow(256, 14) == 0x1_00_00_00_00_00_00_00_00_00_00_00_00_00_00;
    assert Pow(256, 15) == 0x1_00_00_00_00_00_00_00_00_00_00_00_00_00_00_00;
    assert Pow(256, 16) == 0x1_00_00_00_00_00_00_00_00_00_00_00_00_00_00_00_00;
  }

  /** Everything the codec needs to know about the minimal encoding of a magnitude. */
  lemma MinimalLeFacts(n: nat)
    ensures LeValue(MinimalLe(n)) == n
    ensures |MinimalLe(n)| == 16 <==> TWO_120 <= n < TWO_128
    ensures |MinimalLe(n)| <= 16 <==> n < TWO_128
  {
    LeValueMinimalLe(n);
    MinimalLeLength(n, 15);
    MinimalLeLength(n, 16);
    PowersOf256();
  }

  // ---------------------------------------------------------------------
  // Amount <-> 16 little-endian bytes
  // ---------------------------------------------------------------------

  /** `Amount::to_le_bytes`. */
  function ToLeBytes(a: Amount): (r: seq<Byte>)
    ensures |r| == 16 && LeValue(r) == a
  {
    PowersOf256();
    LeValueFixedLe(a, 16);
    FixedLe(a, 16)
  }

  /** `Amount::from_le_bytes` on a 16-byte array. */
  function FromLeBytes(bytes: seq<Byte>): (r: Amount)
    requires |bytes| == 16
    ensures r == LeValue(bytes)
  {
    LeValueBound(bytes);
    PowersOf256();
    LeValue(bytes)
  }

  lemma LeBytesRoundTrip(a: Amount)
    ensures FromLeBytes(ToLeBytes(a)) == a
  {
  }

  // ---------------------------------------------------------------------
  // Big integers
  // ---------------------------------------------------------------------

  datatype Sign = Minus | NoSign | Plus

  type BigInt = int

  function SignOf(v: BigInt): Sign {
    if v < 0 then Minus else if v == 0 then NoSign else Plus
  }

  /** `BigInt::from_bytes_le`: the sign applied to the little-endian magnitude. */
  function FromBytesLe(sign: Sign, bytes: seq<Byte>): BigInt {
    match sign
    case Minus => -(LeValue(bytes) as int)
    case NoSign => 0
    case Plus => LeValue(bytes)
  }

  /** `BigInt::to_bytes_le`: the sign and the minimal little-endian magnitude. */
  function ToBytesLe(v: BigInt): (Sign, seq<Byte>) {
    (SignOf(v), MinimalLe(Abs(v)))
  }

  /** `SQLAmount::to_bigint`: the 16 little-endian bytes read as a non-negative big integer. */
  function ToBigInt(a: Amount): (r: BigInt)
    ensures r >= 0 && r == a
    ensures r == LeValue(ToLeBytes(a))
  {
    FromBytesLe(Plus, ToLeBytes(a))
  }

  /**
   * `SQLAmount::from_bigint`. Both signs keep the magnitude's bytes, and the
   * conversion into a 16-byte array succeeds only when the minimal encoding
   * is exactly 16 bytes long.
   */
  function FromBigInt(v: BigInt): (r: Option<Amount>)
    ensures r.Some? <==> TWO_120 <= Abs(v) < TWO_128
    ensures r.Some? ==> r.value == Abs(v)
  {
    var (sign, magnitude) := ToBytesLe(v);
    var bytes := match sign
      case Plus => magnitude
      case NoSign => magnitude
      case Minus => magnitude;
    MinimalLeFacts(Abs(v));
    if |bytes| == 16 then Some(FromLeBytes(bytes)) else None
  }

  /** A negative big integer converts exactly as its absolute value does. */
  lemma FromBigIntIgnoresSign(v: BigInt)
    ensures FromBigInt(-v) == FromBigInt(v)
    ensures v < 0 && FromBigInt(v).Some? ==> FromBigInt(v).value == -v
  {
  }

  /** Magnitudes below 2^120 and at or above 2^128 are both rejected. */
  lemma FromBigIntRejectsOutsideRange(v: BigInt)
    requires Abs(v) < TWO_120 || TWO_128 <= Abs(v)
    ensures FromBigInt(v) == None
  {
  }

  /** The round trip through a big integer holds on [2^120, 2^128 - 1] ... */
  lemma BigIntRoundTrip(a: Amount)
    requires TWO_120 <= a
    ensures FromBigInt(ToBigInt(a)) == Some(a)
  {
  }

  /** ... and fails for every smaller amount. */
  lemma BigIntRoundTripFailsBelow(a: Amount)
    requires a < TWO_120
    ensures FromBigInt(ToBigInt(a)) == None
  {
  }

  // ---------------------------------------------------------------------
  // Amount <-> NUMERIC column
  // ---------------------------------------------------------------------

  /** A big decimal: the value is unscaled * 10^(-scale). */
  datatype BigDecimal = BigDecimal(unscaled: BigInt, scale: int)

  /** `BigDecimal::is_integer`: the value has no fractional part. */
  predicate IsInteger(d: BigDecimal) {
    d.scale <= 0 || d.unscaled % Pow(10, d.scale) == 0
  }

  datatype AmountError = NotAnInteger | AmountConversionFailed

  /** The text each amount error carries. */
  function Message(e: AmountError): string {
    match e
    case NotAnInteger => "database value is not an integer"
    case AmountConversionFailed => "failed to convert BigInt into SQLAmount"
  }

  /** `Encode for SQLAmount`: the amount as a decimal with no fractional digits. */
  function Encode(a: Amount): (d: BigDecimal)
    ensures d.scale == 0 && d.unscaled == a
    ensures IsInteger(d)
  {
    BigDecimal(ToBigInt(a), 0)
  }

  /**
   * `Decode for SQLAmount`: a decimal with a fractional part is refused;
   * otherwise the unscaled digits, whatever the exponent, go through `FromBigInt`.
   */
  function Decode(d: BigDecimal): (r: Result<Amount, AmountError>)
    ensures !IsInteger(d) ==> r == Err(NotAnInteger)
    ensures IsInteger(d) ==> (r.Ok? <==> TWO_120 <= Abs(d.unscaled) < TWO_128)
    ensures IsInteger(d) && r.Err? ==> r == Err(AmountConversionFailed)
    ensures r.Ok? ==> r.value == Abs(d.unscaled)
  {
    if !IsInteger(d) then
      Err(NotAnInteger)
    else
      var bigInt := d.unscaled;
      match FromBigInt(bigInt)
      case None => Err(AmountConversionFailed)
      case Some(a) => Ok(a)
  }

  /** What is written for an amount in [2^120, 2^128 - 1] reads back unchanged. */
  lemma AmountRoundTrip(a: Amount)
    requires TWO_120 <= a
    ensures Decode(Encode(a)) == Ok(a)
  {
  }

  /** What is written for an amount below 2^120 cannot be read back. */
  lemma SmallAmountUnreadable(a: Amount)
    requires a < TWO_120
    ensures Decode(Encode(a)) == Err(AmountConversionFailed)
  {
  }

  /** Two integer-valued decimals with the same unscaled digits decode alike, whatever their scales. */
  lemma DecodeIgnoresScale(d1: BigDecimal, d2: BigDecimal)
    requires IsInteger(d1) && IsInteger(d2) && d1.unscaled == d2.unscaled
    ensures Decode(d1) == Decode(d2)
  {
  }

  // ---------------------------------------------------------------------
  // Asset identifier <-> BYTEA column
  // ---------------------------------------------------------------------

  /** Why a BYTEA column is not an asset identifier: its length, or the identifier's own check. */
  datatype AssetIdError = WrongLength(length: nat) | InvalidAssetId

  /** An asset identifier, by its 32-byte encoding. */
  type AssetId = s: seq<Byte> | |s| == 32 witness Zeros(32)

  /** `Encode for SQLAssetId`: the identifier's bytes, verbatim. */
  function EncodeAssetId(id: AssetId): (column: seq<Byte>)
    ensures |column| == 32
    ensures forall i :: 0 <= i < 32 ==> column[i] == id[i]
  {
    id
  }

  /**
   * `Decode for SQLAssetId`: the column must hold exactly 32 bytes, and those
   * bytes must be accepted by the identifier's own constructor, which is given
   * as `isValidId`.
   */
  function DecodeAssetId(column: seq<Byte>, isValidId: seq<Byte> -> bool): (r: Result<AssetId, AssetIdError>)
    ensures r.Ok? <==> |column| == 32 && isValidId(column)
    ensures r.Ok? ==> r.value == column
    ensures |column| != 32 ==> r == Err(WrongLength(|column|))
  {
    if |column| != 32 then Err(WrongLength(|column|))
    else if !isValidId(column) then Err(InvalidAssetId)
    else Ok(column)
  }

  /** Every identifier the constructor accepts survives a write and a read unchanged. */
  lemma AssetIdRoundTrip(id: AssetId, isValidId: seq<Byte> -> bool)
    requires isValidId(id)
    ensures DecodeAssetId(EncodeAssetId(id), isValidId) == Ok(id)
  {
  }

  // ---------------------------------------------------------------------
  // Corrected conversions (see Findings in README.md)
  // ---------------------------------------------------------------------

  /**
   * The conversion the documented round trip calls for: any magnitude whose
   * minimal encoding fits in 16 bytes is zero-padded to 16 bytes.
   */
  function FromBigIntPadded(v: BigInt): (r: Option<Amount>)
    ensures r.Some? <==> Abs(v) < TWO_128
    ensures r.Some? ==> r.value == Abs(v)
  {
    var magnitude := MinimalLe(Abs(v));
    MinimalLeFacts(Abs(v));
    if |magnitude| <= 16 then
      var bytes := magnitude + Zeros(16 - |magnitude|);
      LeValueZeroPadded(magnitude, 16 - |magnitude|);
      Some(FromLeBytes(bytes))
    else
      None
  }

  /** The integer an integer-valued decimal denotes. */
  function IntegerValue(d: BigDecimal): (v: BigInt)
    requires IsInteger(d)
    ensures d.scale <= 0 ==> v == d.unscaled * Pow(10, -d.scale)
    ensures d.scale > 0 ==> v * Pow(10, d.scale) == d.unscaled
  {
    if d.scale <= 0 then d.unscaled * Pow(10, -d.scale) else d.unscaled / Pow(10, d.scale)
  }

  /** Decoding by the decimal's value rather than its unscaled digits, with the padded conversion. */
  function DecodeIntended(d: BigDecimal): (r: Result<Amount, AmountError>)
    ensures !IsInteger(d) ==> r == Err(NotAnInteger)
    ensures IsInteger(d) ==> (r.Ok? <==> Abs(IntegerValue(d)) < TWO_128)
    ensures r.Ok? ==> r.value == Abs(IntegerValue(d))
  {
    if !IsInteger(d) then
      Err(NotAnInteger)
    else
      match FromBigIntPadded(IntegerValue(d))
      case None => Err(AmountConversionFailed)
      case Some(a) => Ok(a)
  }

  /** With the correction the round trip holds for every amount. */
  lemma AmountRoundTripIntended(a: Amount)
    ensures FromBigIntPadded(ToBigInt(a)) == Some(a)
    ensures DecodeIntended(Encode(a)) == Ok(a)
  {
  }

  /** The amount 5 is written as the decimal 5 and then refused on the way back. */
  lemma SmallAmountCounterexample()
    ensures Encode(5) == BigDecimal(5, 0)
    ensures Decode(BigDecimal(5, 0)) == Err(AmountConversionFailed)
    ensures DecodeIntended(BigDecimal(5, 0)) == Ok(5)
  {
  }

  /**
   * The decimal 2^120 * 10^1 (unscaled digits 2^120, scale -1) denotes an
   * amount in range, yet decodes to the different amount 2^120.
   */
  lemma ScaleCounterexample()
    ensures IsInteger(BigDecimal(TWO_120, -1))
    ensures IntegerValue(BigDecimal(TWO_120, -1)) == 10 * TWO_120 < TWO_128
    ensures Decode(BigDecimal(TWO_120, -1)) == Ok(TWO_120)
    ensures DecodeIntended(BigDecimal(TWO_120, -1)) == Ok(10 * TWO_120)
  {
  }
}

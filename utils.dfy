/** pkg/utils: the transaction-fee estimate, computed in Go's wrapping
    `uint64` arithmetic, and the success path of GenerateRandomID, which
    prints eight random bytes as lowercase hexadecimal after a prefix. */
module Utils {
  import opened Base

  const TwoTo64: int := 0x1_0000_0000_0000_0000

  /** Go's `int` on a 64-bit platform. */
  newtype Int64 = x: int | -0x8000_0000_0000_0000 <= x < 0x8000_0000_0000_0000

  /** Go's `uint64`. */
  newtype Uint64 = x: int | 0 <= x < 0x1_0000_0000_0000_0000

  const BaseFee: int := 5000
  const SignatureFee: int := 1000
  const InstructionFee: int := 2000

  /** The conversion `uint64(n)`: a negative `int` becomes its two's-complement bit pattern. */
  function ToUint64(n: Int64): (r: Uint64)
    ensures (r as int - n as int) % TwoTo64 == 0
    ensures n >= 0 ==> r as int == n as int
  {
    if n < 0 then (n as int + TwoTo64) as Uint64 else n as int as Uint64
  }

  /** `uint64` multiplication, which wraps modulo 2^64. */
  function MulWrap(a: Uint64, b: Uint64): Uint64 {
    ((a as int * b as int) % TwoTo64) as Uint64
  }

  /** `uint64` addition, which wraps modulo 2^64. */
  function AddWrap(a: Uint64, b: Uint64): Uint64 {
    ((a as int + b as int) % TwoTo64) as Uint64
  }

  /** Two integers that differ by a multiple of 2^64 leave the same remainder. */
  lemma {:induction false} CongruentRemainder(x: int, y: int, k: int)
    requires x == y + k * TwoTo64
    ensures x % TwoTo64 == y % TwoTo64
    decreases if k < 0 then -k else k
  {
    if k > 0 {
      CongruentRemainder(x - TwoTo64, y, k - 1);
    } else if k < 0 {
      CongruentRemainder(x + TwoTo64, y, k + 1);
    }
  }

  /** CalculateTransactionFee: 5000 lamports, plus 1000 per signature, plus
      2000 per instruction, every step in `uint64`. Whatever the inputs, the
      result is the mathematical fee reduced modulo 2^64. */
  function CalculateTransactionFee(numSignatures: Int64, numInstructions: Int64): (fee: Uint64)
    ensures fee as int
      == (BaseFee + SignatureFee * numSignatures as int + InstructionFee * numInstructions as int) % TwoTo64
  {
    var baseFee := BaseFee as Uint64;
    var signatureFee := MulWrap(ToUint64(numSignatures), SignatureFee as Uint64);
    var instructionFee := MulWrap(ToUint64(numInstructions), InstructionFee as Uint64);
    var fee := AddWrap(AddWrap(baseFee, signatureFee), instructionFee);
    WrapIsModular(numSignatures, numInstructions);
    fee
  }

  /** The three wrapping steps of CalculateTransactionFee compose to one reduction. */
  lemma WrapIsModular(s: Int64, i: Int64)
    ensures AddWrap(AddWrap(BaseFee as Uint64, MulWrap(ToUint64(s), SignatureFee as Uint64)),
                    MulWrap(ToUint64(i), InstructionFee as Uint64)) as int
      == (BaseFee + SignatureFee * s as int + InstructionFee * i as int) % TwoTo64
  {
    var us, ui := ToUint64(s) as int, ToUint64(i) as int;
    var ks := if s < 0 then 1 else 0;
    var ki := if i < 0 then 1 else 0;
    assert us == s as int + ks * TwoTo64;
    assert ui == i as int + ki * TwoTo64;
    var sf := (us * SignatureFee) % TwoTo64;
    var inf := (ui * InstructionFee) % TwoTo64;
    var qs := (us * SignatureFee) / TwoTo64;
    var qi := (ui * InstructionFee) / TwoTo64;
    assert sf == SignatureFee * s as int + (SignatureFee * ks - qs) * TwoTo64;
    assert inf == InstructionFee * i as int + (InstructionFee * ki - qi) * TwoTo64;
    var partial := (BaseFee + sf) % TwoTo64;
    var qp := (BaseFee + sf) / TwoTo64;
    assert partial == BaseFee + sf - qp * TwoTo64;
    var total := BaseFee + SignatureFee * s as int + InstructionFee * i as int;
    CongruentRemainder(partial + inf, total, SignatureFee * ks - qs - qp + InstructionFee * ki - qi);
  }

  /** With no signatures and no instructions the fee is the base fee. */
  lemma FeeOfEmptyTransaction()
    ensures CalculateTransactionFee(0, 0) == 5000
  {
  }

  /** Without overflow the fee is exactly 5000 + 1000·signatures + 2000·instructions. */
  lemma FeeExact(s: Int64, i: Int64)
    requires 0 <= s && 0 <= i
    requires BaseFee + SignatureFee * s as int + InstructionFee * i as int < TwoTo64
    ensures CalculateTransactionFee(s, i) as int == BaseFee + SignatureFee * s as int + InstructionFee * i as int
    ensures CalculateTransactionFee(s, i) >= 5000
  {
  }

  /** One more signature costs exactly 1000 lamports, one more instruction exactly 2000. */
  lemma FeeIncrements(s: Int64, i: Int64)
    requires 0 <= s && 0 <= i && s < 0x7fff_ffff_ffff_ffff && i < 0x7fff_ffff_ffff_ffff
    requires BaseFee + SignatureFee * (s as int + 1) + InstructionFee * (i as int + 1) < TwoTo64
    ensures CalculateTransactionFee(s + 1, i) == CalculateTransactionFee(s, i) + 1000
    ensures CalculateTransactionFee(s, i + 1) == CalculateTransactionFee(s, i) + 2000
  {
    FeeExact(s, i);
    FeeExact(s + 1, i);
    FeeExact(s, i + 1);
  }

  /** Without overflow the fee never decreases when either count grows. */
  lemma FeeMonotone(s: Int64, i: Int64, s': Int64, i': Int64)
    requires 0 <= s <= s' && 0 <= i <= i'
    requires BaseFee + SignatureFee * s' as int + InstructionFee * i' as int < TwoTo64
    ensures CalculateTransactionFee(s, i) <= CalculateTransactionFee(s', i')
  {
    FeeExact(s, i);
    FeeExact(s', i');
  }

  /** A negative count wraps: `uint64(-1)` signatures cost 5000 - 1000 modulo 2^64. */
  lemma FeeOfNegativeCountWraps()
    ensures CalculateTransactionFee(-1, 0) == 4000
    ensures CalculateTransactionFee(-3, 0) == 2000
    ensures CalculateTransactionFee(0, -3) as int == TwoTo64 - 1000
  {
  }

  // ---------------------------------------------------------------------
  // Hexadecimal encoding (encoding/hex) and GenerateRandomID

  /** The lowercase digit `encoding/hex` prints for a nibble. */
  function HexDigit(n: int): (c: char)
    requires 0 <= n < 16
  {
    if n < 10 then ('0' as int + n) as char else ('a' as int + n - 10) as char
  }

  predicate IsLowerHex(c: char) {
    '0' <= c <= '9' || 'a' <= c <= 'f'
  }

  /** The nibble a hex digit stands for; `encoding/hex` accepts both cases when decoding. */
  function HexValue(c: char): (r: Option<int>)
    ensures r.Some? ==> 0 <= r.value < 16
  {
    if '0' <= c <= '9' then Some(c as int - '0' as int)
    else if 'a' <= c <= 'f' then Some(c as int - 'a' as int + 10)
    else if 'A' <= c <= 'F' then Some(c as int - 'A' as int + 10)
    else None
  }

  /** hex.EncodeToString: two lowercase digits per byte, high nibble first. */
  function HexEncode(b: seq<Byte>): (s: string)
    ensures |s| == 2 * |b|
    ensures forall k :: 0 <= k < |s| ==> IsLowerHex(s[k])
  {
    if b == [] then []
    else [HexDigit(b[0] as int / 16), HexDigit(b[0] as int % 16)] + HexEncode(b[1..])
  }

  /** hex.DecodeString: None for an odd length or a character that is not a hex digit. */
  function HexDecode(s: string): (r: Option<seq<Byte>>)
    ensures r.Some? ==> 2 * |r.value| == |s|
  {
    if |s| == 0 then Some([])
    else if |s| == 1 then None
    else
      match (HexValue(s[0]), HexValue(s[1]), HexDecode(s[2..]))
      case (Some(hi), Some(lo), Some(rest)) => Some([(hi * 16 + lo) as Byte] + rest)
      case _ => None
  }

  lemma HexDigitValue(n: int)
    requires 0 <= n < 16
    ensures HexValue(HexDigit(n)) == Some(n)
  {
  }

  /** Decoding an encoding gives the bytes back. */
  lemma {:induction false} HexRoundTrip(b: seq<Byte>)
    ensures HexDecode(HexEncode(b)) == Some(b)
  {
    if b != [] {
      var s := HexEncode(b);
      var x := b[0] as int;
      HexDigitValue(x / 16);
      HexDigitValue(x % 16);
      assert s[2..] == HexEncode(b[1..]);
      HexRoundTrip(b[1..]);
      assert [b[0]] + b[1..] == b;
    }
  }

  /** The number of random bytes GenerateRandomID reads. */
  const RandomIdBytes: nat := 8

  /** GenerateRandomID on a successful `rand.Read`: the prefix, a dash and
      the bytes in hex. The bytes are the parameter `random`. */
  function GenerateRandomId(prefix: string, random: seq<Byte>): (id: string)
    requires |random| == RandomIdBytes
    ensures |id| == |prefix| + 1 + 2 * RandomIdBytes
    ensures id[..|prefix|] == prefix && id[|prefix|] == '-'
    ensures forall k :: |prefix| < k < |id| ==> IsLowerHex(id[k])
    ensures HexDecode(id[|prefix| + 1..]) == Some(random)
  {
    var id := prefix + "-" + HexEncode(random);
    assert id[|prefix| + 1..] == HexEncode(random);
    HexRoundTrip(random);
    id
  }

  /** Two IDs with the same prefix are equal exactly when their random bytes are. */
  lemma RandomIdInjective(prefix: string, a: seq<Byte>, b: seq<Byte>)
    requires |a| == RandomIdBytes && |b| == RandomIdBytes
    ensures GenerateRandomId(prefix, a) == GenerateRandomId(prefix, b) <==> a == b
  {
    if GenerateRandomId(prefix, a) == GenerateRandomId(prefix, b) {
      assert Some(a) == Some(b);
    }
  }
}

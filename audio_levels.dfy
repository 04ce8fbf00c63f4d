/**
 * The loudness computation of the microphone recorder: each chunk of 16-bit
 * little-endian PCM is decoded two bytes at a time, the squares of the samples
 * are summed, and the root mean square is turned into decibels relative to
 * full scale and then into a volume level from 0 to 9.
 *
 * Bytes are JVM bytes (signed, -128..127) and the square of a sample is a JVM
 * `Int` product. The square root and the decimal logarithm are the platform's;
 * they are parameters of the operations that use them.
 */
module AudioLevels {
  import opened JvmInts

  /** A JVM `Byte`. */
  newtype Int8 = x: int | -128 <= x < 128

  /** Full scale of a 16-bit sample, the reference of the decibel scale. */
  const FULL_SCALE: real := 32767.0
  /** The decibel value reported for a silent chunk. */
  const SILENCE_DB: real := -120.0
  /** Below this root mean square a chunk counts as silent. */
  const RMS_EPSILON: real := 0.0000000001

  /** `b.toInt() and 0xFF`. */
  function Unsigned(b: Int8): (r: int)
    ensures 0 <= r < 256
    ensures r % 256 == b as int % 256
  {
    if b < 0 then b as int + 256 else b as int
  }

  // ---------------------------------------------------------------------------
  // Decoding, as written: the two bytes are joined as an unsigned 16-bit value.
  // ---------------------------------------------------------------------------

  /** `(lo and 0xFF) or ((hi and 0xFF) shl 8)`: an unsigned value, although PCM samples are signed. */
  function UnsignedSample(lo: Int8, hi: Int8): (r: int)
    ensures 0 <= r < 0x1_0000
    ensures r % 256 == Unsigned(lo) && r / 256 == Unsigned(hi)
  {
    Unsigned(lo) + 256 * Unsigned(hi)
  }

  /**
   * The samples the loop decodes from the first `bytesRecord` bytes, as
   * written: one per even offset, each joined unsigned.
   */
  function DecodedSamples(buffer: seq<Int8>, bytesRecord: nat): (samples: seq<int>)
    requires bytesRecord <= |buffer| && bytesRecord % 2 == 0
    ensures |samples| == bytesRecord / 2
    ensures forall k :: 0 <= k < |samples| ==> 0 <= samples[k] < 0x1_0000
    ensures forall k :: 0 <= k < |samples| ==> samples[k] == UnsignedSample(buffer[2 * k], buffer[2 * k + 1])
  {
    seq(bytesRecord / 2, k requires 0 <= k < bytesRecord / 2 => UnsignedSample(buffer[2 * k], buffer[2 * k + 1]))
  }

  /** `sample * sample` on the unsigned value: an `Int` product, so it wraps above 46340. */
  function UnsignedSquare(lo: Int8, hi: Int8): (r: int)
    ensures -0x8000_0000 <= r < 0x8000_0000
    ensures (r - UnsignedSample(lo, hi) * UnsignedSample(lo, hi)) % 0x1_0000_0000 == 0
  {
    Wrap32(UnsignedSample(lo, hi) * UnsignedSample(lo, hi))
  }

  // ---------------------------------------------------------------------------
  // Decoding, corrected: 16-bit two's complement, little-endian.
  // ---------------------------------------------------------------------------

  /** The signed sample the two bytes encode. */
  function SignedSample(lo: Int8, hi: Int8): (r: int)
    ensures -0x8000 <= r < 0x8000
    ensures (r - UnsignedSample(lo, hi)) % 0x1_0000 == 0
  {
    Unsigned(lo) + 256 * hi as int
  }

  /** The little-endian bytes of a 16-bit sample. */
  function Encode(s: int): (bytes: (Int8, Int8))
    requires -0x8000 <= s < 0x8000
  {
    var u := if s < 0 then s + 0x1_0000 else s;
    var lo := u % 256;
    var hi := u / 256;
    ((if lo >= 128 then lo - 256 else lo) as Int8, (if hi >= 128 then hi - 256 else hi) as Int8)
  }

  /** Decoding inverts encoding. */
  lemma DecodeEncode(s: int)
    requires -0x8000 <= s < 0x8000
    ensures SignedSample(Encode(s).0, Encode(s).1) == s
  {
  }

  /** Encoding inverts decoding: every pair of bytes is some sample. */
  lemma EncodeDecode(lo: Int8, hi: Int8)
    ensures Encode(SignedSample(lo, hi)) == (lo, hi)
  {
  }

  lemma MulMonotone(x: int, y: int, z: int)
    requires 0 <= x && y <= z
    ensures x * y <= x * z
  {
    assert x * z - x * y == x * (z - y);
  }

  lemma SquareBound(s: int)
    requires -0x8000 <= s <= 0x8000
    ensures 0 <= s * s <= 0x4000_0000
  {
    var a := if s < 0 then -s else s;
    assert s * s == a * a;
    MulMonotone(a, a, 0x8000);
  }

  /** The square of a corrected sample never overflows an `Int`. */
  function SampleSquare(lo: Int8, hi: Int8): (r: int)
    ensures 0 <= r <= 0x4000_0000
    ensures Wrap32(r) == r
  {
    var s := SignedSample(lo, hi);
    SquareBound(s);
    s * s
  }

  /**
   * As written, a negative sample is read as the sample plus 65536, so quiet
   * negative samples look loud.
   */
  lemma UnsignedMisreadsNegative(s: int)
    requires -0x8000 <= s < 0
    ensures UnsignedSample(Encode(s).0, Encode(s).1) == s + 0x1_0000
  {
  }

  /**
   * The sample -1 (bytes FF FF, the quietest negative value): as written it is
   * decoded as 65535 and its square overflows to a negative number; corrected,
   * its square is 1.
   */
  lemma MinusOneCounterexample()
    ensures Encode(-1) == (-1, -1)
    ensures UnsignedSample(-1, -1) == 65535
    ensures UnsignedSquare(-1, -1) == -131071
    ensures SampleSquare(-1, -1) == 1
  {
  }

  /**
   * The loop's `sumSquares += sample * sample` as written, over the unsigned
   * samples: each square is an `Int` product, wrapped before it is added. The
   * sum itself is a `Double`; it stays far below 2^53, so it is exact.
   */
  function WrappedSquareSum(samples: seq<int>): int {
    if samples == [] then 0
    else WrappedSquareSum(samples[..|samples| - 1]) + Wrap32(samples[|samples| - 1] * samples[|samples| - 1])
  }

  /** Samples all read as 65535 sum, as written, to -131071 each. */
  lemma {:induction false} AllMaxSamplesSum(samples: seq<int>)
    requires forall k :: 0 <= k < |samples| ==> samples[k] == 65535
    ensures WrappedSquareSum(samples) == -131071 * |samples|
  {
    if samples != [] {
      AllMaxSamplesSum(samples[..|samples| - 1]);
      assert Wrap32(65535 * 65535) == -131071;
    }
  }

  /**
   * As written, a chunk of the quietest negative sample (all bytes FF) has a
   * negative sum of squares, so its root mean square is the square root of a
   * negative number.
   */
  lemma MinusOneChunkSumsNegative(buffer: seq<Int8>, bytesRecord: nat)
    requires bytesRecord <= |buffer| && bytesRecord % 2 == 0 && bytesRecord > 0
    requires forall k :: 0 <= k < bytesRecord ==> buffer[k] == -1
    ensures WrappedSquareSum(DecodedSamples(buffer, bytesRecord)) == -131071 * (bytesRecord / 2) < 0
  {
    var samples := DecodedSamples(buffer, bytesRecord);
    forall k | 0 <= k < |samples|
      ensures samples[k] == 65535
    {
      assert buffer[2 * k] == -1 && buffer[2 * k + 1] == -1;
    }
    AllMaxSamplesSum(samples);
  }

  // ---------------------------------------------------------------------------
  // Sum of squares over a chunk, with the corrected decoding
  // ---------------------------------------------------------------------------

  /** The sum of the squares of the first `m` samples of `buffer`. */
  function Squares(buffer: seq<Int8>, m: nat): int
    requires 2 * m <= |buffer|
  {
    if m == 0 then 0 else Squares(buffer, m - 1) + SampleSquare(buffer[2 * m - 2], buffer[2 * m - 1])
  }

  /** Each sample adds at most 2^30. */
  lemma {:induction false} SquaresBounds(buffer: seq<Int8>, m: nat)
    requires 2 * m <= |buffer|
    ensures 0 <= Squares(buffer, m) <= m * 0x4000_0000
  {
    if m > 0 {
      SquaresBounds(buffer, m - 1);
    }
  }

  /** A chunk of all-zero bytes has no energy. */
  lemma {:induction false} SilentChunk(buffer: seq<Int8>, m: nat)
    requires 2 * m <= |buffer|
    requires forall k :: 0 <= k < 2 * m ==> buffer[k] == 0
    ensures Squares(buffer, m) == 0
  {
    if m > 0 {
      SilentChunk(buffer, m - 1);
    }
  }

  /**
   * The `for (i in 0 until bytesRecord step 2)` loop, with the corrected
   * decoding: the sum of the squares of the chunk's `bytesRecord / 2` samples.
   * A 16-bit PCM read always returns whole samples.
   */
  method SumOfSquares(buffer: seq<Int8>, bytesRecord: nat) returns (sum: int)
    requires bytesRecord <= |buffer| && bytesRecord % 2 == 0
    ensures sum == Squares(buffer, bytesRecord / 2)
    ensures 0 <= sum <= (bytesRecord / 2) * 0x4000_0000
  {
    sum := 0;
    var i := 0;
    while i < bytesRecord
      invariant 0 <= i <= bytesRecord && i % 2 == 0
      invariant sum == Squares(buffer, i / 2)
    {
      sum := sum + SampleSquare(buffer[i], buffer[i + 1]);
      i := i + 2;
    }
    SquaresBounds(buffer, bytesRecord / 2);
  }

  // ---------------------------------------------------------------------------
  // Decibels and the volume level
  // ---------------------------------------------------------------------------

  /** `20 * log10(rms / 32767)`, or the silence value when the root mean square is negligible. */
  function Decibels(rms: real, log10: real -> real): (db: real)
    ensures rms <= RMS_EPSILON ==> db == SILENCE_DB
  {
    if rms > RMS_EPSILON then 20.0 * log10(rms / FULL_SCALE) else SILENCE_DB
  }

  function Min(a: real, b: real): real { if a <= b then a else b }
  function Max(a: real, b: real): real { if a >= b then a else b }

  /**
   * The 0-9 volume level: -60 dB and below is 0, and the 40 dB above it are
   * spread linearly over the levels, -20 dB and above being 9. The clamped
   * value is never negative, so truncation (`toInt`) is the floor.
   */
  function Level(db: real): (level: int)
    ensures 0 <= level <= 9
  {
    if db > -60.0 then Min(9.0, Max(0.0, (db + 60.0) * 9.0 / 40.0)).Floor else 0
  }

  /** Level `k` is reached exactly from `-60 + 40k/9` dB on. */
  lemma LevelThreshold(db: real, k: int)
    requires 1 <= k <= 9
    ensures Level(db) >= k <==> db >= -60.0 + 40.0 * k as real / 9.0
  {
    if db > -60.0 {
      var x := (db + 60.0) * 9.0 / 40.0;
      assert x >= k as real <==> db >= -60.0 + 40.0 * k as real / 9.0;
    }
  }

  /** Nothing at or below -60 dB registers. */
  lemma QuietIsLevelZero(db: real)
    ensures db <= -60.0 ==> Level(db) == 0
    ensures Level(db) == 0 <==> db < -60.0 + 40.0 / 9.0
  {
    LevelThreshold(db, 1);
  }

  /** The top level is reached at -20 dB. */
  lemma LoudIsLevelNine(db: real)
    ensures Level(db) == 9 <==> db >= -20.0
  {
    LevelThreshold(db, 9);
  }

  /** A louder chunk never shows a lower level. */
  lemma LevelMonotone(db1: real, db2: real)
    requires db1 <= db2
    ensures Level(db1) <= Level(db2)
  {
    var k := Level(db1);
    if k >= 1 {
      LevelThreshold(db1, k);
      LevelThreshold(db2, k);
    }
  }

  /** A silent chunk shows level 0, whatever the logarithm. */
  lemma SilenceShowsNothing(rms: real, log10: real -> real)
    requires rms <= RMS_EPSILON
    ensures Level(Decibels(rms, log10)) == 0
  {
  }
}

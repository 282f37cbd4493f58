/**
 * Trace and span identifiers: 16- and 8-byte arrays, valid when not all zero
 * (section 3.2.2.3 and 3.2.2.4 of W3C Trace Context Level 1), printed as lower-case
 * hexadecimal, and filled from the clock when the random source fails.
 */
module TraceIds {
  import opened Basics
  import opened Numerals

  type Byte = b: int | 0 <= b < 256

  function Zeros(n: nat): (z: seq<Byte>)
    ensures |z| == n && forall i :: 0 <= i < n ==> z[i] == 0
  {
    seq(n, _ => 0)
  }

  /** `TraceID`, a `[16]byte`. */
  type TraceId = s: seq<Byte> | |s| == 16 witness Zeros(16)

  /** `SpanID`, an `[8]byte`. */
  type SpanId = s: seq<Byte> | |s| == 8 witness Zeros(8)

  /** Some byte of the identifier is not zero. */
  predicate NonZero(id: seq<Byte>)
  {
    exists i :: 0 <= i < |id| && id[i] != 0
  }

  /**
   * `TraceID.IsValid` and `SpanID.IsValid`: scans the bytes and answers true at the
   * first one that is not zero.
   */
  method IsValid(id: seq<Byte>) returns (valid: bool)
    ensures valid <==> NonZero(id)
  {
    var i := 0;
    while i < |id|
      invariant 0 <= i <= |id|
      invariant forall k :: 0 <= k < i ==> id[k] == 0
    {
      if id[i] != 0 {
        return true;
      }
      i := i + 1;
    }
    return false;
  }

  /** The all-zero identifiers are the invalid ones. */
  lemma ZeroIdsInvalid()
    ensures !NonZero(Zeros(16)) && !NonZero(Zeros(8))
    ensures forall t: TraceId :: !NonZero(t) ==> t == Zeros(16)
  {
  }

  // ---------------------------------------------------------------- hexadecimal

  /** The lower-case hexadecimal digit of a value below 16. */
  function HexDigit(d: nat): (c: char)
    requires d < 16
    ensures IsLowerHex(c)
  {
    if d < 10 then (d + '0' as int) as char else (d - 10 + 'a' as int) as char
  }

  predicate IsLowerHex(c: char)
  {
    '0' <= c <= '9' || 'a' <= c <= 'f'
  }

  /** The value of a hexadecimal digit; `encoding/hex` accepts either case when decoding. */
  function HexValue(c: char): Option<nat>
  {
    if '0' <= c <= '9' then Some(c as int - '0' as int)
    else if 'a' <= c <= 'f' then Some(c as int - 'a' as int + 10)
    else if 'A' <= c <= 'F' then Some(c as int - 'A' as int + 10)
    else None
  }

  /** `hex.EncodeToString`: two lower-case digits per byte, high nibble first. */
  function HexEncode(bytes: seq<Byte>): (s: string)
    ensures |s| == 2 * |bytes|
    ensures forall i :: 0 <= i < |s| ==> IsLowerHex(s[i])
  {
    if bytes == [] then ""
    else [HexDigit(bytes[0] / 16), HexDigit(bytes[0] % 16)] + HexEncode(bytes[1..])
  }

  /** `hex.DecodeString`: fails on an odd length or on a character that is not a hex digit. */
  function HexDecode(s: string): (r: Option<seq<Byte>>)
    ensures r.Some? ==> |s| % 2 == 0 && |r.value| == |s| / 2
    decreases |s|
  {
    if s == [] then Some([])
    else if |s| == 1 then None
    else match (HexValue(s[0]), HexValue(s[1]), HexDecode(s[2..]))
      case (Some(hi), Some(lo), Some(rest)) =>
        assert hi < 16 && lo < 16 by { HexValueBound(s[0]); HexValueBound(s[1]); }
        Some([hi * 16 + lo] + rest)
      case _ => None
  }

  lemma HexValueBound(c: char)
    ensures HexValue(c).Some? ==> HexValue(c).value < 16
  {
  }

  /** `TraceID.String`: 32 lower-case hexadecimal characters. */
  function TraceIdString(t: TraceId): (s: string)
    ensures |s| == 32 && forall i :: 0 <= i < |s| ==> IsLowerHex(s[i])
  {
    HexEncode(t)
  }

  /** `SpanID.String`: 16 lower-case hexadecimal characters. */
  function SpanIdString(t: SpanId): (s: string)
    ensures |s| == 16 && forall i :: 0 <= i < |s| ==> IsLowerHex(s[i])
  {
    HexEncode(t)
  }

  /** Decoding the printed form of an identifier gives back its bytes. */
  lemma {:induction false} HexDecodeEncode(bytes: seq<Byte>)
    ensures HexDecode(HexEncode(bytes)) == Some(bytes)
  {
    if bytes != [] {
      var s := HexEncode(bytes);
      assert s[2..] == HexEncode(bytes[1..]);
      HexDecodeEncode(bytes[1..]);
      assert [bytes[0] / 16 * 16 + bytes[0] % 16] + bytes[1..] == bytes;
    }
  }

  /** The lower-case form of a hex digit. */
  function LowerHex(c: char): char
  {
    if 'A' <= c <= 'F' then (c as int + 32) as char else c
  }

  /**
   * Whatever hexadecimal text decodes, printing the bytes again gives the same text
   * with its upper-case digits lowered.
   */
  lemma {:induction false} HexEncodeDecode(s: string)
    requires HexDecode(s).Some?
    ensures HexEncode(HexDecode(s).value) == seq(|s|, i requires 0 <= i < |s| => LowerHex(s[i]))
    decreases |s|
  {
    if s != [] {
      HexEncodeDecode(s[2..]);
      var hi := HexValue(s[0]).value;
      var lo := HexValue(s[1]).value;
      HexValueBound(s[0]);
      HexValueBound(s[1]);
      var b := hi * 16 + lo;
      assert b / 16 == hi && b % 16 == lo;
      assert HexDecode(s).value == [b] + HexDecode(s[2..]).value;
      assert HexDigit(hi) == LowerHex(s[0]);
      assert HexDigit(lo) == LowerHex(s[1]);
    }
  }

  // ------------------------------------------------------------ clock fallback

  /** `ts >> (8 * i)` on a Go `int64`: `i` arithmetic shifts by eight bits, each a floor division. */
  function Shift(ts: int, i: nat): int
  {
    if i == 0 then ts else Shift(ts, i - 1) / 256
  }

  /** `byte(ts >> (8 * i))`: the low eight bits of the shifted value. */
  function TimestampByte(ts: int, i: nat): Byte
  {
    Shift(ts, i) % 256
  }

  /** The span identifier the fallback writes for clock reading `ts`. */
  function SpanFallback(ts: Int64): (id: SpanId)
    ensures forall i :: 0 <= i < 8 ==> id[i] == TimestampByte(ts, i)
  {
    seq(8, i requires 0 <= i < 8 => TimestampByte(ts, i))
  }

  /** The trace identifier the fallback writes for clock reading `ts`: the clock bytes twice. */
  function TraceFallback(ts: Int64): (id: TraceId)
    ensures forall i :: 0 <= i < 8 ==> id[i] == TimestampByte(ts, i) && id[i + 8] == id[i]
  {
    SpanFallback(ts) + SpanFallback(ts)
  }

  /** Fills a trace identifier with the clock bytes, twice over, as the fallback loops do. */
  method FillTraceFallback(id: array<Byte>, ts: Int64)
    requires id.Length == 16
    modifies id
    ensures id[..] == TraceFallback(ts)
  {
    for i := 0 to 8
      invariant forall k :: 0 <= k < i ==> id[k] == TimestampByte(ts, k)
    {
      id[i] := TimestampByte(ts, i);
    }
    for i := 8 to 16
      invariant forall k :: 0 <= k < 8 ==> id[k] == TimestampByte(ts, k)
      invariant forall k :: 8 <= k < i ==> id[k] == TimestampByte(ts, k - 8)
    {
      id[i] := TimestampByte(ts, i - 8);
    }
  }

  /** Fills a span identifier with the clock bytes, as the fallback loop does. */
  method FillSpanFallback(id: array<Byte>, ts: Int64)
    requires id.Length == 8
    modifies id
    ensures id[..] == SpanFallback(ts)
  {
    for i := 0 to 8
      invariant forall k :: 0 <= k < i ==> id[k] == TimestampByte(ts, k)
    {
      id[i] := TimestampByte(ts, i);
    }
  }

  /**
   * `GenerateTraceID`: `random` is what `crypto/rand.Read` produced, or `None` when it
   * failed, and `now` is `time.Now().UnixNano()`.
   */
  method GenerateTraceId(random: Option<TraceId>, now: Int64) returns (id: TraceId)
    ensures random.Some? ==> id == random.value
    ensures random.None? ==> id == TraceFallback(now)
  {
    if random.Some? {
      return random.value;
    }
    var buffer := new Byte[16](_ => 0);
    FillTraceFallback(buffer, now);
    id := buffer[..];
  }

  /** `GenerateSpanID`, with the random source and the clock as in `GenerateTraceId`. */
  method GenerateSpanId(random: Option<SpanId>, now: Int64) returns (id: SpanId)
    ensures random.Some? ==> id == random.value
    ensures random.None? ==> id == SpanFallback(now)
  {
    if random.Some? {
      return random.value;
    }
    var buffer := new Byte[8](_ => 0);
    FillSpanFallback(buffer, now);
    id := buffer[..];
  }

  /** The fallback span identifier is the first half of the fallback trace identifier. */
  lemma SpanFallbackIsTracePrefix(ts: Int64)
    ensures SpanFallback(ts) == TraceFallback(ts)[..8]
  {
    assert forall i :: 0 <= i < 8 ==> SpanFallback(ts)[i] == TraceFallback(ts)[..8][i];
  }

  function Pow256(k: nat): (p: nat)
    ensures p >= 1
  {
    if k == 0 then 1 else 256 * Pow256(k - 1)
  }

  /** When the first `k` clock bytes are zero, the clock reading is a multiple of `256^k`. */
  lemma {:induction false} LowBytesZero(ts: int, k: nat)
    requires forall i :: 0 <= i < k ==> TimestampByte(ts, i) == 0
    ensures ts == Pow256(k) * Shift(ts, k)
  {
    if k > 0 {
      LowBytesZero(ts, k - 1);
      var x := Shift(ts, k - 1);
      assert x % 256 == 0 by { assert TimestampByte(ts, k - 1) == 0; }
      assert x == 256 * (x / 256);
      calc {
        ts;
        Pow256(k - 1) * x;
        Pow256(k - 1) * (256 * Shift(ts, k));
        { assert Pow256(k) == 256 * Pow256(k - 1); }
        Pow256(k) * Shift(ts, k);
      }
    }
  }

  lemma ShiftOfZero(i: nat)
    ensures Shift(0, i) == 0
  {
  }

  /** A 64-bit clock reading whose eight bytes are all zero is zero. */
  lemma ZeroBytesZeroClock(ts: Int64)
    ensures (forall i :: 0 <= i < 8 ==> TimestampByte(ts, i) == 0) ==> ts == 0
  {
    if forall i :: 0 <= i < 8 ==> TimestampByte(ts, i) == 0 {
      LowBytesZero(ts, 8);
      assert Pow256(8) == 0x1_0000_0000_0000_0000;
    }
  }

  /** The fallback identifiers are valid exactly when the clock reading is not zero. */
  lemma FallbackValidIff(ts: Int64)
    ensures NonZero(TraceFallback(ts)) <==> ts != 0
    ensures NonZero(SpanFallback(ts)) <==> ts != 0
  {
    if ts == 0 {
      forall i: nat | i < 8 ensures TimestampByte(ts, i) == 0 {
        ShiftOfZero(i);
      }
    } else {
      ZeroBytesZeroClock(ts);
      var i :| 0 <= i < 8 && TimestampByte(ts, i) != 0;
      assert SpanFallback(ts)[i] != 0;
      assert TraceFallback(ts)[i] != 0;
    }
  }
}

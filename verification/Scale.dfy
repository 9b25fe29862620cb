/** Compact integers of the SCALE codec (section "Compact/General Integers"): the four modes, as encoded and decoded. */
module Compact {
  newtype Byte = b: int | 0 <= b < 256

  type Bytes = seq<Byte>

  datatype CodecError = Invalid | OutOfRange | TooLarge | Raised

  datatype Result<+T> = Ok(value: T) | Err(error: CodecError)

  function Pow256(len: nat): nat {
    if len == 0 then 1 else 256 * Pow256(len - 1)
  }

  /** Little-endian bytes of n, `len` of them. */
  function Little(n: nat, len: nat): (bs: Bytes)
    ensures |bs| == len
  {
    if len == 0 then [] else [(n % 256) as Byte] + Little(n / 256, len - 1)
  }

  function FromLittle(bs: Bytes): nat {
    if bs == [] then 0 else bs[0] as nat + 256 * FromLittle(bs[1..])
  }

  /** The fewest bytes that hold n. */
  function ByteLength(n: nat): nat {
    if n == 0 then 0 else 1 + ByteLength(n / 256)
  }

  function Pad(raw: Bytes): Bytes {
    if |raw| < 4 then raw + seq(4 - |raw|, _ => 0) else raw
  }

  function Encode(value: int): Result<Bytes> {
    if value < 0 then Err(Invalid)
    else if value < 0x40 then Ok([(4 * value) as Byte])
    else if value < 0x4000 then Ok(Little(4 * value + 1, 2))
    else if value < 0x4000_0000 then Ok(Little(4 * value + 2, 4))
    else
      var raw := Pad(Little(value, ByteLength(value)));
      if |raw| > 67 then Err(TooLarge) else Ok([(4 * (|raw| - 4) + 3) as Byte] + raw)
  }

  function Decode(data: Bytes, offset: int): Result<(nat, nat)> {
    if offset < 0 || offset >= |data| then Err(OutOfRange)
    else
      var first := data[offset] as nat;
      match first % 4
      case 0 => Ok((first / 4, offset + 1))
      case 1 =>
        if offset + 1 >= |data| then Err(OutOfRange) else Ok((FromLittle(data[offset..offset + 2]) / 4, offset + 2))
      case 2 =>
        if offset + 3 >= |data| then Err(OutOfRange) else Ok((FromLittle(data[offset..offset + 4]) / 4, offset + 4))
      case _ =>
        var end := offset + 1 + first / 4 + 4;
        if end > |data| then Err(OutOfRange)
        else
          var value := FromLittle(data[offset + 1..end]);
          if value > 0xFFFF_FFFF then Err(TooLarge) else Ok((value, end))
  }

  // ---------- little-endian arithmetic ----------

  lemma SmallPowers()
    ensures Pow256(1) == 0x100 && Pow256(2) == 0x1_0000 && Pow256(3) == 0x100_0000 && Pow256(4) == 0x1_0000_0000
  {
    assert Pow256(1) == 256 * Pow256(0);
    assert Pow256(2) == 256 * Pow256(1);
    assert Pow256(3) == 256 * Pow256(2);
    assert Pow256(4) == 256 * Pow256(3);
  }

  lemma {:induction false} PowersGrow(a: nat, b: nat)
    requires a <= b
    ensures 1 <= Pow256(a) <= Pow256(b)
    decreases b
  {
    if a < b {
      PowersGrow(a, b - 1);
    } else if a > 0 {
      PowersGrow(a - 1, b - 1);
    }
  }

  lemma {:induction false} LittleRoundTrip(n: nat, len: nat)
    requires n < Pow256(len)
    ensures FromLittle(Little(n, len)) == n
    decreases len
  {
    if len > 0 {
      LittleRoundTrip(n / 256, len - 1);
      assert Little(n, len)[1..] == Little(n / 256, len - 1);
    }
  }

  lemma {:induction false} FromLittleRoundTrip(bs: Bytes)
    ensures FromLittle(bs) < Pow256(|bs|) && Little(FromLittle(bs), |bs|) == bs
    decreases |bs|
  {
    if bs != [] {
      FromLittleRoundTrip(bs[1..]);
      var low, high := bs[0] as nat, FromLittle(bs[1..]);
      assert (low + 256 * high) / 256 == high && (low + 256 * high) % 256 == low;
    }
  }

  lemma {:induction false} ByteLengthIsLeast(n: nat)
    requires n > 0
    ensures ByteLength(n) > 0 && Pow256(ByteLength(n) - 1) <= n < Pow256(ByteLength(n))
    decreases n
  {
    if n >= 256 { ByteLengthIsLeast(n / 256); }
  }

  lemma FitsInBytes(n: nat, len: nat)
    requires n > 0
    ensures ByteLength(n) <= len <==> n < Pow256(len)
  {
    ByteLengthIsLeast(n);
    if ByteLength(n) <= len { PowersGrow(ByteLength(n), len); } else { PowersGrow(len, ByteLength(n) - 1); }
  }

  // ---------- what the encoding means ----------

  /** Encoding refuses exactly the negative numbers and those of more than 67 bytes; and it never has to pad. */
  lemma EncodesExactly(value: int, most: nat)
    requires most == 67
    ensures Encode(value).Ok? <==> 0 <= value < Pow256(most)
    ensures value >= 0x4000_0000 ==> ByteLength(value) >= 4
  {
    SmallPowers();
    PowersGrow(4, most);
    if value >= 0x4000_0000 {
      FitsInBytes(value, 3);
      FitsInBytes(value, most);
    }
  }

  lemma BigEncoding(value: nat)
    requires value >= 0x4000_0000 && Encode(value).Ok?
    ensures var n := ByteLength(value);
            4 <= n <= 67 && Encode(value) == Ok([(4 * (n - 4) + 3) as Byte] + Little(value, n))
            && FromLittle(Little(value, n)) == value
  {
    EncodesExactly(value, 67);
    ByteLengthIsLeast(value);
    LittleRoundTrip(value, ByteLength(value));
  }

  /** Decoding only looks at the bytes it consumes. */
  lemma DecodeIsLocal(data: Bytes, offset: int, pre: Bytes, suf: Bytes)
    requires Decode(data, offset).Ok?
    ensures var end := Decode(data, offset).value.1;
            offset < end <= |data|
            && Decode(pre + data[offset..end] + suf, |pre|) == Ok((Decode(data, offset).value.0, |pre| + end - offset))
  {
    var end := Decode(data, offset).value.1;
    var here := pre + data[offset..end] + suf;
    assert here[|pre|..|pre| + end - offset] == data[offset..end];
    assert here[|pre|] == data[offset];
    assert here[|pre| + 1..|pre| + end - offset] == data[offset + 1..end];
  }

  lemma WordRoundTrip(value: nat, mode: nat, len: nat, bs: Bytes)
    requires (mode == 1 && len == 2) || (mode == 2 && len == 4)
    requires 4 * value + mode < Pow256(len) && bs == Little(4 * value + mode, len)
    ensures Decode(bs, 0) == Ok((value, len))
  {
    LittleRoundTrip(4 * value + mode, len);
    var x := 4 * value + mode;
    assert bs[0] as nat == x % 256;
    assert x % 256 % 4 == mode;
    assert bs[0..len] == bs;
  }

  lemma SmallRoundTrip(value: nat)
    requires value < 0x4000_0000
    ensures Encode(value).Ok? && Decode(Encode(value).value, 0) == Ok((value, |Encode(value).value|))
  {
    SmallPowers();
    if 0x40 <= value < 0x4000 {
      WordRoundTrip(value, 1, 2, Encode(value).value);
    } else if 0x4000 <= value {
      WordRoundTrip(value, 2, 4, Encode(value).value);
    }
  }

  lemma BigRoundTrip(value: nat)
    requires 0x4000_0000 <= value && Encode(value).Ok?
    ensures Decode(Encode(value).value, 0)
         == if value <= 0xFFFF_FFFF then Ok((value, |Encode(value).value|)) else Err(TooLarge)
  {
    BigEncoding(value);
    var bs := Encode(value).value;
    assert bs[1..|bs|] == Little(value, ByteLength(value));
  }

  /** The round trip anywhere inside other bytes, for every number of 32 bits. */
  lemma DecodeUndoesEncode(value: int, pre: Bytes, suf: Bytes)
    requires 0 <= value < 0x1_0000_0000
    ensures Encode(value).Ok?
    ensures var e := Encode(value).value; Decode(pre + e + suf, |pre|) == Ok((value, |pre| + |e|))
  {
    if value < 0x4000_0000 {
      SmallRoundTrip(value);
    } else {
      PowersGrow(4, 67);
      SmallPowers();
      EncodesExactly(value, 67);
      BigRoundTrip(value);
    }
    var e := Encode(value).value;
    assert e[0..|e|] == e;
    DecodeIsLocal(e, 0, pre, suf);
  }

  /** Encoding accepts more than decoding takes back: the round trip holds exactly below 2 to the 32. */
  lemma RoundTripIff(value: int)
    requires Encode(value).Ok?
    ensures Decode(Encode(value).value, 0) == Ok((value, |Encode(value).value|)) <==> value < 0x1_0000_0000
  {
    if value < 0x4000_0000 { SmallRoundTrip(value); } else { BigRoundTrip(value); }
  }

  // ---------- which encodings are accepted ----------

  /** The mode is the shortest that holds the value. */
  predicate Shortest(first: nat, value: nat) {
    match first % 4
    case 0 => true
    case 1 => value >= 0x40
    case 2 => value >= 0x4000
    case _ => first / 4 == 0 && value >= 0x4000_0000
  }

  /** Decoding also takes longer forms than encoding writes: encoding again gives the same bytes exactly when the form
      was the shortest. */
  lemma EncodeUndoesDecodeIff(data: Bytes)
    requires Decode(data, 0).Ok?
    ensures var (value, end) := Decode(data, 0).value;
            Encode(value).Ok? && (Encode(value).value == data[..end] <==> Shortest(data[0] as nat, value))
  {
    var (value, end) := Decode(data, 0).value;
    if data[0] as nat % 4 == 3 { LongForm(data); } else { ShortForm(data); }
    DecodeUndoesEncode(value, [], []);
  }

  lemma WordForm(data: Bytes, mode: nat, len: nat)
    requires (mode == 1 && len == 2) || (mode == 2 && len == 4)
    requires len <= |data| && data[0] as nat % 4 == mode
    ensures var value := FromLittle(data[..len]) / 4;
            4 * value + mode < Pow256(len) && Little(4 * value + mode, len) == data[..len]
  {
    FromLittleRoundTrip(data[..len]);
    var x := FromLittle(data[..len]);
    assert x % 256 == data[..len][0] as nat;
    assert x % 256 % 4 == x % 4;
  }

  lemma ShortForm(data: Bytes)
    requires Decode(data, 0).Ok? && data[0] as nat % 4 != 3
    ensures var (value, end) := Decode(data, 0).value;
            value < 0x4000_0000 && (Encode(value) == Ok(data[..end]) <==> Shortest(data[0] as nat, value))
  {
    SmallPowers();
    var (value, end) := Decode(data, 0).value;
    assert data[0..end] == data[..end];
    match data[0] as nat % 4
    case 0 => assert data[..1] == [data[0]];
    case 1 => WordForm(data, 1, 2);
    case _ => WordForm(data, 2, 4);
  }

  lemma LongForm(data: Bytes)
    requires Decode(data, 0).Ok? && data[0] as nat % 4 == 3
    ensures var (value, end) := Decode(data, 0).value;
            Encode(value) == Ok(data[..end]) <==> Shortest(data[0] as nat, value)
  {
    SmallPowers();
    var (value, end) := Decode(data, 0).value;
    FromLittleRoundTrip(data[1..end]);
    assert data[..end] == [data[0]] + data[1..end];
    if value >= 0x4000_0000 {
      FitsInBytes(value, 3);
      FitsInBytes(value, 4);
    }
  }
}

/** What the codes say as numbers: a text's symbols are the base-32 digits of the
    big-endian integer that the bytes write, shifted by the padding. */
module CodeNumbers {
  import opened Codes
  import opened Prelude
  import Words

  /** The number that digits write, most significant first. */
  function InBase(base: nat, digits: seq<nat>): nat {
    if digits == [] then 0
    else base * InBase(base, digits[..|digits| - 1]) + digits[|digits| - 1]
  }

  function BitsValue(bits: Bits): nat {
    if bits == [] then 0 else 2 * BitsValue(bits[..|bits| - 1]) + Bit(bits[|bits| - 1])
  }

  lemma BitsValuePush(bits: Bits, b: bool)
    ensures BitsValue(bits + [b]) == 2 * BitsValue(bits) + Bit(b)
  {
    assert (bits + [b])[..|bits|] == bits;
  }

  lemma BitsValueSymbol(bits: Bits, group: Bits)
    requires |group| == 5
    ensures BitsValue(bits + group) == 32 * BitsValue(bits) + SymbolOf(group)
  {
    hide BitsValue;
    var one := bits + [group[0]];
    var two := one + [group[1]];
    var three := two + [group[2]];
    var four := three + [group[3]];
    BitsValuePush(bits, group[0]);
    BitsValuePush(one, group[1]);
    BitsValuePush(two, group[2]);
    BitsValuePush(three, group[3]);
    BitsValuePush(four, group[4]);
    assert bits + group == four + [group[4]];
  }

  lemma BitsValueByte(bits: Bits, group: Bits)
    requires |group| == 8
    ensures BitsValue(bits + group) == 256 * BitsValue(bits) + ByteOf(group)
  {
    hide BitsValue;
    var five := bits + group[..5];
    var six := five + [group[5]];
    var seven := six + [group[6]];
    BitsValueSymbol(bits, group[..5]);
    BitsValuePush(five, group[5]);
    BitsValuePush(six, group[6]);
    BitsValuePush(seven, group[7]);
    assert bits + group == seven + [group[7]];
  }

  lemma {:induction false} SymbolNumber(values: seq<nat>)
    requires AreSymbolValues(values)
    ensures BitsValue(SymbolStream(values)) == InBase(32, values)
  {
    if values != [] {
      var n := |values| - 1;
      SymbolNumber(values[..n]);
      PushSymbol(values[..n], values[n]);
      assert values[..n] + [values[n]] == values;
      BitsValueSymbol(SymbolStream(values[..n]), SymbolBits(values[n]));
      SymbolOfBits(values[n]);
    }
  }

  lemma {:induction false} ByteNumber(bytes: seq<Byte>)
    ensures BitsValue(ByteStream(bytes)) == InBase(256, bytes)
  {
    if bytes != [] {
      var n := |bytes| - 1;
      ByteNumber(bytes[..n]);
      PushByte(bytes[..n], bytes[n]);
      assert bytes[..n] + [bytes[n]] == bytes;
      BitsValueByte(ByteStream(bytes[..n]), ByteBits(bytes[n]));
      ByteOfBits(bytes[n]);
    }
  }

  lemma {:induction false} ShiftedNumber(bits: Bits, k: nat)
    ensures BitsValue(bits + Zeros(k)) == Words.Times(BitsValue(bits), k)
  {
    if k == 0 {
      assert bits + Zeros(0) == bits;
    } else {
      ShiftedNumber(bits, k - 1);
      BitsValuePush(bits + Zeros(k - 1), false);
      assert bits + Zeros(k) == bits + Zeros(k - 1) + [false];
    }
  }

  /** `encode` writes the integer times 2^padding in base 32. */
  lemma EncodedNumber(bytes: seq<Byte>, symbols: nat)
    requires Exact(symbols, |bytes|)
    ensures AllSymbols(Encoded(bytes, symbols))
    ensures InBase(32, TextValues(Encoded(bytes, symbols))) ==
            InBase(256, bytes) * Words.Pow2(5 * symbols - 8 * |bytes|)
  {
    var padding := 5 * symbols - 8 * |bytes|;
    EncodedStream(bytes, symbols);
    SymbolNumber(TextValues(Encoded(bytes, symbols)));
    ByteNumber(bytes);
    ShiftedNumber(ByteStream(bytes), padding);
    Words.TimesIsProduct(InBase(256, bytes), padding);
  }

  /** `decode` reads the integer off the base-32 digits, whose remainder by
      2^padding is zero. */
  lemma DecodedNumber(s: string, n: nat)
    requires Decoded(s, n).Some?
    ensures Exact(|s|, n) && AllSymbols(s)
    ensures InBase(32, TextValues(s)) == InBase(256, Decoded(s, n).value) * Words.Pow2(5 * |s| - 8 * n)
  {
    Canonical(s, n);
    EncodedNumber(Decoded(s, n).value, |s|);
  }
}

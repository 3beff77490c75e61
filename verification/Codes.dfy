/** Pairing codes and recovery keys: Crockford base32 (authd/src/codes.rs).
    Bytes and symbols are numbers; machine words are bit strings, most
    significant bit first, and so is the stream of bits that a text carries
    (section 6 of RFC 4648, with Crockford's alphabet and no `=`). */
module Codes {
  import opened Prelude

  type Byte = b: nat | b < 256
  type Bits = seq<bool>

  const ALPHABET: string := "0123456789ABCDEFGHJKMNPQRSTVWXYZ"
  const PAIRING_CODE_BYTES: nat := 5
  const RECOVERY_KEY_BYTES: nat := 16
  const RECOVERY_KEY_SYMBOLS: nat := 26

  // ----- Machine words -----

  function Zeros(n: nat): (b: Bits)
    ensures |b| == n && forall i :: 0 <= i < n ==> !b[i]
  {
    seq(n, _ => false)
  }

  function Ones(n: nat): (b: Bits)
    ensures |b| == n && forall i :: 0 <= i < n ==> b[i]
  {
    seq(n, _ => true)
  }

  /** `word << k`: the k oldest bits are lost. */
  function Shl(word: Bits, k: nat): (r: Bits)
    requires k <= |word|
    ensures |r| == |word|
  {
    word[k..] + Zeros(k)
  }

  /** `word >> k`. */
  function Shr(word: Bits, k: nat): (r: Bits)
    requires k <= |word|
    ensures |r| == |word|
  {
    Zeros(k) + word[..|word| - k]
  }

  function Or(x: Bits, y: Bits): (r: Bits)
    requires |x| == |y|
    ensures |r| == |x|
  {
    seq(|x|, i requires 0 <= i < |x| => x[i] || y[i])
  }

  function And(x: Bits, y: Bits): (r: Bits)
    requires |x| == |y|
    ensures |r| == |x|
  {
    seq(|x|, i requires 0 <= i < |x| => x[i] && y[i])
  }

  /** `u16::from`. */
  function Widen(value: Bits): (r: Bits)
    requires |value| <= 16
    ensures |r| == 16
  {
    Zeros(16 - |value|) + value
  }

  /** The n youngest bits of a word. */
  function Youngest(word: Bits, n: nat): (r: Bits)
    requires n <= |word|
    ensures |r| == n
  {
    word[|word| - n..]
  }

  function Bit(b: bool): nat {
    if b then 1 else 0
  }

  function SymbolBits(v: nat): (b: Bits)
    requires v < 32
    ensures |b| == 5
  {
    var h1 := v / 2;
    var h2 := h1 / 2;
    var h3 := h2 / 2;
    var h4 := h3 / 2;
    [h4 == 1, h3 % 2 == 1, h2 % 2 == 1, h1 % 2 == 1, v % 2 == 1]
  }

  function SymbolOf(b: Bits): (v: nat)
    requires |b| == 5
    ensures v < 32
  {
    2 * (2 * (2 * (2 * Bit(b[0]) + Bit(b[1])) + Bit(b[2])) + Bit(b[3])) + Bit(b[4])
  }

  function ByteBits(v: Byte): (b: Bits)
    ensures |b| == 8
  {
    var h1 := v / 2;
    var h2 := h1 / 2;
    SymbolBits(h2 / 2) + [h2 % 2 == 1, h1 % 2 == 1, v % 2 == 1]
  }

  function ByteOf(b: Bits): (v: Byte)
    requires |b| == 8
  {
    2 * (2 * (2 * SymbolOf(b[..5]) + Bit(b[5])) + Bit(b[6])) + Bit(b[7])
  }

  lemma SymbolOfBits(v: nat)
    requires v < 32
    ensures SymbolOf(SymbolBits(v)) == v
  {
    var h1 := v / 2;
    var h2 := h1 / 2;
    var h3 := h2 / 2;
    var h4 := h3 / 2;
    assert h4 == Bit(h4 == 1);
  }

  lemma SymbolBitsOf(b: Bits)
    requires |b| == 5
    ensures SymbolBits(SymbolOf(b)) == b
  {
    var h4 := Bit(b[0]);
    var h3 := 2 * h4 + Bit(b[1]);
    var h2 := 2 * h3 + Bit(b[2]);
    var h1 := 2 * h2 + Bit(b[3]);
    var v := 2 * h1 + Bit(b[4]);
    assert v / 2 == h1 && h1 / 2 == h2 && h2 / 2 == h3 && h3 / 2 == h4;
  }

  lemma ByteOfBits(v: Byte)
    ensures ByteOf(ByteBits(v)) == v
  {
    var h1 := v / 2;
    var h2 := h1 / 2;
    assert ByteBits(v)[..5] == SymbolBits(h2 / 2);
    SymbolOfBits(h2 / 2);
  }

  lemma ByteBitsOf(b: Bits)
    requires |b| == 8
    ensures ByteBits(ByteOf(b)) == b
  {
    var h3 := SymbolOf(b[..5]);
    var h2 := 2 * h3 + Bit(b[5]);
    var h1 := 2 * h2 + Bit(b[6]);
    assert ByteOf(b) / 2 == h1 && h1 / 2 == h2 && h2 / 2 == h3;
    SymbolBitsOf(b[..5]);
    assert b == b[..5] + [b[5], b[6], b[7]];
  }

  // ----- The alphabet -----

  /** The symbol at a position of the alphabet, which leaves out I, L, O and U. */
  function Symbol(v: nat): char
    requires v < 32
  {
    if v < 10 then '0' + v as char
    else if v < 18 then 'A' + (v - 10) as char
    else if v < 20 then 'J' + (v - 18) as char
    else if v < 22 then 'M' + (v - 20) as char
    else if v < 27 then 'P' + (v - 22) as char
    else 'V' + (v - 27) as char
  }

  lemma SymbolsAreTheAlphabet(v: nat)
    requires v < |ALPHABET|
    ensures v < 32 && Symbol(v) == ALPHABET[v]
  {
  }

  lemma SymbolReads(v: nat)
    requires v < 32
    ensures SymbolValue(Symbol(v)) == Some(v)
  {
  }

  /** codes.rs `symbol_value`. */
  function SymbolValue(c: char): (v: Option<nat>)
    ensures v.Some? ==> v.value < 32 && Symbol(v.value) == c
    ensures v.None? ==> forall u: nat :: u < 32 ==> Symbol(u) != c
  {
    if '0' <= c <= '9' then Some((c - '0') as nat)
    else if 'A' <= c <= 'H' then Some(10 + (c - 'A') as nat)
    else if 'J' <= c <= 'K' then Some(18 + (c - 'J') as nat)
    else if 'M' <= c <= 'N' then Some(20 + (c - 'M') as nat)
    else if 'P' <= c <= 'T' then Some(22 + (c - 'P') as nat)
    else if 'V' <= c <= 'Z' then Some(27 + (c - 'V') as nat)
    else None
  }

  predicate AllSymbols(s: string) {
    forall i :: 0 <= i < |s| ==> SymbolValue(s[i]).Some?
  }

  // ----- The specification: the bits that bytes and texts carry -----

  /** `symbols` is the exact number of symbols for `n` bytes: the bits of the
      last symbol that remain are its padding. */
  predicate Exact(symbols: nat, n: nat) {
    0 <= 5 * symbols - 8 * n < 5
  }

  function ByteStream(bytes: seq<Byte>): (b: Bits)
    ensures |b| == 8 * |bytes|
  {
    seq(8 * |bytes|, k requires 0 <= k < 8 * |bytes| => ByteBits(bytes[k / 8])[k % 8])
  }

  predicate AreSymbolValues(values: seq<nat>) {
    forall i :: 0 <= i < |values| ==> values[i] < 32
  }

  function SymbolStream(values: seq<nat>): (b: Bits)
    requires AreSymbolValues(values)
    ensures |b| == 5 * |values|
  {
    seq(5 * |values|, k requires 0 <= k < 5 * |values| => SymbolBits(values[k / 5])[k % 5])
  }

  function TextValues(s: string): (values: seq<nat>)
    requires AllSymbols(s)
    ensures |values| == |s| && AreSymbolValues(values)
  {
    seq(|s|, i requires 0 <= i < |s| => SymbolValue(s[i]).value)
  }

  function TextStream(s: string): (b: Bits)
    requires AllSymbols(s)
    ensures |b| == 5 * |s|
  {
    SymbolStream(TextValues(s))
  }

  function Padded(bytes: seq<Byte>, symbols: nat): (b: Bits)
    requires Exact(symbols, |bytes|)
    ensures |b| == 5 * symbols
  {
    ByteStream(bytes) + Zeros(5 * symbols - 8 * |bytes|)
  }

  /** The text of a byte string: its bits and zero padding, five by five. */
  function Encoded(bytes: seq<Byte>, symbols: nat): (s: string)
    requires Exact(symbols, |bytes|)
    ensures |s| == symbols
  {
    seq(symbols, i requires 0 <= i < symbols => Symbol(SymbolOf(Padded(bytes, symbols)[5 * i..5 * i + 5])))
  }

  /** Exactly the right number of symbols, whose padding bits are zero, decode to
      the bytes that their other bits make, eight by eight. */
  function Decoded(s: string, n: nat): (r: Option<seq<Byte>>)
    ensures r.Some? ==> |r.value| == n
  {
    if !Exact(|s|, n) || !AllSymbols(s) then None
    else if Youngest(TextStream(s), 5 * |s| - 8 * n) != Zeros(5 * |s| - 8 * n) then None
    else Some(seq(n, j requires 0 <= j < n => ByteOf(TextStream(s)[8 * j..8 * j + 8])))
  }

  // ----- The round trips -----

  lemma InGroup(full: Bits, from: nat, width: nat, r: nat)
    requires r < width && from + width <= |full|
    ensures full[from..from + width][r] == full[from + r]
  {
  }

  lemma Adjacent(full: Bits, a: nat, b: nat, c: nat)
    requires a <= b <= c <= |full|
    ensures full[a..b] + full[b..c] == full[a..c]
    ensures full[a..c][..b - a] == full[a..b] && full[a..c][b - a..] == full[b..c]
  {
  }

  lemma EncodedSymbol(bytes: seq<Byte>, symbols: nat, i: nat)
    requires Exact(symbols, |bytes|) && i < symbols
    ensures Encoded(bytes, symbols)[i] == Symbol(SymbolOf(Padded(bytes, symbols)[5 * i..5 * i + 5]))
  {
  }

  lemma GroupsOfEncoded(bytes: seq<Byte>, symbols: nat, i: nat)
    requires Exact(symbols, |bytes|) && i < symbols
    ensures SymbolValue(Encoded(bytes, symbols)[i]).Some?
    ensures SymbolBits(SymbolValue(Encoded(bytes, symbols)[i]).value) == Padded(bytes, symbols)[5 * i..5 * i + 5]
  {
    var group := Padded(bytes, symbols)[5 * i..5 * i + 5];
    EncodedSymbol(bytes, symbols, i);
    SymbolBitsOf(group);
    SymbolReads(SymbolOf(group));
  }

  /** A text carries exactly its bytes' bits and zero padding. */
  lemma EncodedStream(bytes: seq<Byte>, symbols: nat)
    requires Exact(symbols, |bytes|)
    ensures AllSymbols(Encoded(bytes, symbols))
    ensures TextStream(Encoded(bytes, symbols)) == Padded(bytes, symbols)
  {
    var s, full := Encoded(bytes, symbols), Padded(bytes, symbols);
    forall i | 0 <= i < symbols ensures SymbolValue(s[i]).Some? {
      GroupsOfEncoded(bytes, symbols, i);
    }
    forall k | 0 <= k < 5 * symbols ensures TextStream(s)[k] == full[k] {
      var i, r := k / 5, k % 5;
      GroupsOfEncoded(bytes, symbols, i);
      InGroup(full, 5 * i, 5, r);
    }
  }

  lemma GroupsOfBytes(bytes: seq<Byte>, j: nat)
    requires j < |bytes|
    ensures ByteStream(bytes)[8 * j..8 * j + 8] == ByteBits(bytes[j])
  {
    var group := ByteStream(bytes)[8 * j..8 * j + 8];
    forall k | 0 <= k < 8 ensures group[k] == ByteBits(bytes[j])[k] {
      assert (8 * j + k) / 8 == j && (8 * j + k) % 8 == k;
    }
  }

  lemma GroupsOfSymbols(values: seq<nat>, i: nat)
    requires AreSymbolValues(values) && i < |values|
    ensures SymbolStream(values)[5 * i..5 * i + 5] == SymbolBits(values[i])
  {
    var group := SymbolStream(values)[5 * i..5 * i + 5];
    forall k | 0 <= k < 5 ensures group[k] == SymbolBits(values[i])[k] {
      assert (5 * i + k) / 5 == i && (5 * i + k) % 5 == k;
    }
  }

  /** Decoding an encoding gives the bytes back. */
  lemma RoundTrip(bytes: seq<Byte>, symbols: nat)
    requires Exact(symbols, |bytes|)
    ensures Decoded(Encoded(bytes, symbols), |bytes|) == Some(bytes)
  {
    var n, full := |bytes|, Padded(bytes, symbols);
    EncodedStream(bytes, symbols);
    assert Youngest(full, 5 * symbols - 8 * n) == Zeros(5 * symbols - 8 * n);
    forall j | 0 <= j < n ensures ByteOf(full[8 * j..8 * j + 8]) == bytes[j] {
      GroupsOfBytes(bytes, j);
      assert full[8 * j..8 * j + 8] == ByteStream(bytes)[8 * j..8 * j + 8];
      ByteOfBits(bytes[j]);
    }
    assert Decoded(Encoded(bytes, symbols), n).value == bytes;
  }

  lemma GroupsOfDecoded(s: string, n: nat, j: nat)
    requires Decoded(s, n).Some? && j < n
    ensures ByteBits(Decoded(s, n).value[j]) == TextStream(s)[8 * j..8 * j + 8]
  {
    ByteBitsOf(TextStream(s)[8 * j..8 * j + 8]);
  }

  /** The bytes read carry exactly the text's bits. */
  lemma DecodedStream(s: string, n: nat)
    requires Decoded(s, n).Some?
    ensures Padded(Decoded(s, n).value, |s|) == TextStream(s)
  {
    var bytes, full := Decoded(s, n).value, TextStream(s);
    forall k | 0 <= k < 8 * n ensures ByteStream(bytes)[k] == full[k] {
      var j, r := k / 8, k % 8;
      GroupsOfDecoded(s, n, j);
      InGroup(full, 8 * j, 8, r);
    }
    assert full == full[..8 * n] + Youngest(full, 5 * |s| - 8 * n);
    assert full[..8 * n] == ByteStream(bytes);
  }

  /** Every accepted text is the encoding of what it decodes to. */
  lemma Canonical(s: string, n: nat)
    requires Decoded(s, n).Some?
    ensures Encoded(Decoded(s, n).value, |s|) == s
  {
    DecodedStream(s, n);
    forall i | 0 <= i < |s| ensures Encoded(Decoded(s, n).value, |s|)[i] == s[i] {
      GroupsOfSymbols(TextValues(s), i);
      SymbolOfBits(SymbolValue(s[i]).value);
    }
  }

  // ----- The streaming loops -----

  /** Shifting k bits into a register: its n live bits and the new ones are the
      n+k youngest, whatever older bits the register still holds or drops. */
  lemma PushBits(buffer: Bits, value: Bits, n: nat)
    requires |buffer| == 16 && n + |value| <= 16
    ensures Youngest(Or(Shl(buffer, |value|), Widen(value)), n + |value|) == Youngest(buffer, n) + value
  {
  }

  /** Reading the k oldest of n live bits with a mask of k ones. */
  lemma TakeBits(buffer: Bits, n: nat, k: nat)
    requires |buffer| == 16 && k <= n <= 16
    ensures Youngest(And(Shr(buffer, n - k), Widen(Ones(k))), k) == Youngest(buffer, n)[..k]
    ensures Youngest(buffer, n - k) == Youngest(buffer, n)[k..]
  {
  }

  /** The text written so far and the live bits of the buffer are the first
      `read` bits of the padded stream. */
  ghost predicate Emitted(bytes: seq<Byte>, symbols: nat, out: string, buffer: Bits, bits: nat, read: nat) {
    && Exact(symbols, |bytes|) && |buffer| == 16 && bits <= 16 && |out| <= symbols
    && 5 * |out| + bits == read <= 5 * symbols
    && Youngest(buffer, bits) == Padded(bytes, symbols)[5 * |out|..read]
    && forall i :: 0 <= i < |out| ==> out[i] == Encoded(bytes, symbols)[i]
  }

  lemma Absorb(bytes: seq<Byte>, symbols: nat, out: string, buffer: Bits, bits: nat, i: nat)
    requires i < |bytes| && bits < 5 && Emitted(bytes, symbols, out, buffer, bits, 8 * i)
    ensures Emitted(bytes, symbols, out, Or(Shl(buffer, 8), Widen(ByteBits(bytes[i]))), bits + 8, 8 * (i + 1))
  {
    var full := Padded(bytes, symbols);
    PushBits(buffer, ByteBits(bytes[i]), bits);
    GroupsOfBytes(bytes, i);
    assert full[8 * i..8 * i + 8] == ByteStream(bytes)[8 * i..8 * i + 8];
    Adjacent(full, 5 * |out|, 8 * i, 8 * i + 8);
  }

  /** The word of which the youngest five bits are the next symbol. */
  function SymbolIn(word: Bits): nat
    requires |word| == 16
  {
    SymbolOf(Youngest(And(word, Widen(Ones(5))), 5))
  }

  lemma NextSymbol(bytes: seq<Byte>, symbols: nat, out: string, buffer: Bits, bits: nat, read: nat)
    requires Emitted(bytes, symbols, out, buffer, bits + 5, read)
    ensures Symbol(SymbolIn(Shr(buffer, bits))) == Encoded(bytes, symbols)[|out|]
    ensures Youngest(buffer, bits) == Padded(bytes, symbols)[5 * |out| + 5..read]
  {
    var full, done := Padded(bytes, symbols), 5 * |out|;
    TakeBits(buffer, bits + 5, 5);
    Adjacent(full, done, done + 5, read);
    assert Youngest(And(Shr(buffer, bits), Widen(Ones(5))), 5) == full[done..done + 5];
    EncodedSymbol(bytes, symbols, |out|);
  }

  lemma Emit(bytes: seq<Byte>, symbols: nat, out: string, buffer: Bits, bits: nat, read: nat)
    requires Emitted(bytes, symbols, out, buffer, bits + 5, read)
    ensures Emitted(bytes, symbols, out + [Symbol(SymbolIn(Shr(buffer, bits)))], buffer, bits, read)
  {
    hide Shr, Padded, SymbolIn, Symbol, Encoded, Youngest;
    NextSymbol(bytes, symbols, out, buffer, bits, read);
    EncodedLength(bytes, symbols);
  }

  lemma EncodedLength(bytes: seq<Byte>, symbols: nat)
    requires Exact(symbols, |bytes|)
    ensures |Encoded(bytes, symbols)| == symbols
  {
  }

  /** `encode` shifts what remains left over the padding bits. */
  lemma Pad(bytes: seq<Byte>, symbols: nat, out: string, buffer: Bits, bits: nat)
    requires 0 < bits < 5 && Emitted(bytes, symbols, out, buffer, bits, 8 * |bytes|)
    ensures Emitted(bytes, symbols, out, Shl(buffer, 5 - bits), 5, 5 * symbols)
  {
    var full, n := Padded(bytes, symbols), 8 * |bytes|;
    assert Youngest(Shl(buffer, 5 - bits), 5) == Youngest(buffer, bits) + Zeros(5 - bits);
    assert full[n..] == Zeros(5 - bits);
    Adjacent(full, 5 * |out|, n, |full|);
  }

  /** codes.rs `encode`: a 16-bit buffer that emits five bits at a time. */
  method Encode(bytes: seq<Byte>, symbols: nat) returns (out: string)
    requires Exact(symbols, |bytes|)
    ensures out == Encoded(bytes, symbols)
  {
    out := "";
    var buffer, bits: nat := Zeros(16), 0;
    for i := 0 to |bytes|
      invariant bits < 5 && Emitted(bytes, symbols, out, buffer, bits, 8 * i)
    {
      Absorb(bytes, symbols, out, buffer, bits, i);
      buffer := Or(Shl(buffer, 8), Widen(ByteBits(bytes[i])));
      bits := bits + 8;
      while bits >= 5
        invariant bits < 13 && Emitted(bytes, symbols, out, buffer, bits, 8 * (i + 1))
      {
        bits := bits - 5;
        Emit(bytes, symbols, out, buffer, bits, 8 * (i + 1));
        out := out + [Symbol(SymbolIn(Shr(buffer, bits)))];
      }
    }
    if bits > 0 {
      Pad(bytes, symbols, out, buffer, bits);
      Emit(bytes, symbols, out, Shl(buffer, 5 - bits), 0, 5 * symbols);
      assert Shr(Shl(buffer, 5 - bits), 0) == Shl(buffer, 5 - bits);
      out := out + [Symbol(SymbolIn(Shl(buffer, 5 - bits)))];
    }
  }

  /** The bytes written and the live bits of the buffer are the bits of the
      symbols read. */
  ghost predicate Absorbed(values: seq<nat>, bytes: seq<Byte>, buffer: Bits, bits: nat) {
    && AreSymbolValues(values) && |buffer| == 16 && bits <= 16
    && 8 * |bytes| + bits == 5 * |values|
    && SymbolStream(values) == ByteStream(bytes) + Youngest(buffer, bits)
  }

  /** The values are those of the first symbols of the text. */
  ghost predicate Reads(s: string, values: seq<nat>) {
    |values| <= |s| && forall i :: 0 <= i < |values| ==> SymbolValue(s[i]) == Some(values[i])
  }

  lemma ReadsOne(s: string, values: seq<nat>, v: nat)
    requires Reads(s, values) && |values| < |s| && SymbolValue(s[|values|]) == Some(v)
    ensures Reads(s, values + [v])
  {
  }

  lemma NotRead(s: string, n: nat, i: nat)
    requires i < |s| && SymbolValue(s[i]) == None
    ensures Decoded(s, n) == None
  {
  }

  lemma PushSymbol(values: seq<nat>, v: nat)
    requires AreSymbolValues(values) && v < 32
    ensures AreSymbolValues(values + [v])
    ensures SymbolStream(values + [v]) == SymbolStream(values) + SymbolBits(v)
  {
    var more := values + [v];
    GroupsOfSymbols(more, |values|);
    forall k | 0 <= k < 5 * |values| ensures SymbolStream(more)[k] == SymbolStream(values)[k] {
      assert more[k / 5] == values[k / 5];
    }
  }

  lemma PushByte(bytes: seq<Byte>, b: Byte)
    ensures ByteStream(bytes + [b]) == ByteStream(bytes) + ByteBits(b)
  {
    var more := bytes + [b];
    GroupsOfBytes(more, |bytes|);
    forall k | 0 <= k < 8 * |bytes| ensures ByteStream(more)[k] == ByteStream(bytes)[k] {
      assert more[k / 8] == bytes[k / 8];
    }
  }

  lemma ReadSymbol(values: seq<nat>, bytes: seq<Byte>, buffer: Bits, bits: nat, v: nat)
    requires Absorbed(values, bytes, buffer, bits) && bits < 8 && v < 32
    ensures Absorbed(values + [v], bytes, Or(Shl(buffer, 5), Widen(SymbolBits(v))), bits + 5)
  {
    PushSymbol(values, v);
    PushBits(buffer, SymbolBits(v), bits);
  }

  lemma WriteByte(values: seq<nat>, bytes: seq<Byte>, buffer: Bits, bits: nat)
    requires Absorbed(values, bytes, buffer, bits + 8) && bits <= 8
    ensures Absorbed(values, bytes + [ByteOf(Youngest(Shr(buffer, bits), 8))], buffer, bits)
  {
    var oldest := Youngest(Shr(buffer, bits), 8);
    ByteBitsOf(oldest);
    PushByte(bytes, ByteOf(oldest));
    assert Youngest(buffer, bits + 8) == oldest + Youngest(buffer, bits);
  }

  /** `value & ((1 << padding) - 1) != 0`, a mask of `padding` ones. */
  predicate PaddingSet(v: nat, padding: nat)
    requires v < 32 && padding < 5
  {
    And(SymbolBits(v), Zeros(5 - padding) + Ones(padding)) != Zeros(5)
  }

  lemma PaddingOfSymbol(v: nat, padding: nat)
    requires v < 32 && padding < 5
    ensures PaddingSet(v, padding) <==> Youngest(SymbolBits(v), padding) != Zeros(padding)
  {
    var last, k := SymbolBits(v), 5 - padding;
    var masked := And(last, Zeros(k) + Ones(padding));
    assert masked == Zeros(k) + last[k..];
    assert masked[k..] == last[k..] && Zeros(5)[k..] == Zeros(padding);
    assert last[k..] == Zeros(padding) ==> masked == Zeros(5);
  }

  lemma PaddingOfLast(values: seq<nat>, padding: nat)
    requires AreSymbolValues(values) && values != [] && padding < 5
    ensures PaddingSet(values[|values| - 1], padding) <==>
            Youngest(SymbolStream(values), padding) != Zeros(padding)
  {
    var n := |values| - 1;
    GroupsOfSymbols(values, n);
    PaddingOfSymbol(values[n], padding);
    LastBits(SymbolStream(values), SymbolBits(values[n]), 5 * n, padding);
  }

  lemma LastBits(full: Bits, last: Bits, from: nat, k: nat)
    requires |last| == 5 && |full| == from + 5 && full[from..from + 5] == last && k <= 5
    ensures Youngest(full, k) == Youngest(last, k)
  {
  }

  /** A last symbol with padding bits set spoils the text. */
  lemma Rejected(s: string, values: seq<nat>, n: nat)
    requires |s| == |values| > 0 && Exact(|s|, n) && Reads(s, values)
    requires values[|values| - 1] < 32
    requires PaddingSet(values[|values| - 1], 5 * |s| - 8 * n)
    ensures Decoded(s, n) == None
  {
    TextRead(s, values);
    PaddingOfLast(values, 5 * |s| - 8 * n);
  }

  lemma TextRead(s: string, values: seq<nat>)
    requires |s| == |values| && Reads(s, values)
    ensures AllSymbols(s) && TextValues(s) == values
  {
  }

  lemma NothingPadded(values: seq<nat>, padding: nat)
    requires AreSymbolValues(values) && padding < 5 && padding <= 5 * |values|
    requires values != [] ==> !PaddingSet(values[|values| - 1], padding)
    ensures Youngest(SymbolStream(values), padding) == Zeros(padding)
  {
    if values != [] { PaddingOfLast(values, padding); }
  }

  /** Otherwise what `decode` has written is its result. */
  lemma AllAbsorbed(s: string, values: seq<nat>, bytes: seq<Byte>, buffer: Bits)
    requires |s| == |values| && Exact(|s|, |bytes|) && Reads(s, values)
    requires Absorbed(values, bytes, buffer, 5 * |s| - 8 * |bytes|)
    requires |s| > 0 ==> !PaddingSet(values[|values| - 1], 5 * |s| - 8 * |bytes|)
    ensures Decoded(s, |bytes|) == Some(bytes)
  {
    TextRead(s, values);
    NothingPadded(values, 5 * |s| - 8 * |bytes|);
    forall j | 0 <= j < |bytes| ensures ByteOf(TextStream(s)[8 * j..8 * j + 8]) == bytes[j] {
      WrittenByte(values, bytes, buffer, 5 * |s| - 8 * |bytes|, j);
    }
    assert Decoded(s, |bytes|).value == bytes;
  }

  lemma WrittenByte(values: seq<nat>, bytes: seq<Byte>, buffer: Bits, bits: nat, j: nat)
    requires Absorbed(values, bytes, buffer, bits) && j < |bytes|
    ensures ByteOf(SymbolStream(values)[8 * j..8 * j + 8]) == bytes[j]
  {
    assert SymbolStream(values)[8 * j..8 * j + 8] == ByteStream(bytes)[8 * j..8 * j + 8];
    GroupsOfBytes(bytes, j);
    ByteOfBits(bytes[j]);
  }

  lemma NothingRead(s: string)
    ensures Reads(s, []) && Absorbed([], [], Zeros(16), 0)
  {
  }

  lemma Inexact(s: string, n: nat)
    requires !Exact(|s|, n)
    ensures Decoded(s, n) == None
  {
  }

  lemma Progress(position: nat, symbols: nat, index: nat, bits: nat, n: nat)
    requires Exact(symbols, n) && position <= symbols && 8 * index + bits == 5 * position
    ensures index <= n && (bits >= 8 ==> index < n)
    ensures position == symbols && bits < 8 ==> index == n && bits == 5 * symbols - 8 * n
  {
  }

  /** codes.rs `decode`: the same buffer, filled by five and emptied by eight. */
  method Decode(symbols: string, n: nat) returns (r: Option<seq<Byte>>)
    ensures r == Decoded(symbols, n)
  {
    hide Decoded, Reads, PaddingSet, Youngest, Or, Shl, Shr, Widen, SymbolBits, ByteOf, SymbolStream, ByteStream;
    if |symbols| * 5 < n * 8 || |symbols| * 5 - n * 8 >= 5 {
      Inexact(symbols, n);
      return None;
    }
    var padding := |symbols| * 5 - n * 8;
    var out: seq<Byte> := [];
    var buffer, bits: nat := Zeros(16), 0;
    ghost var values: seq<nat> := [];
    NothingRead(symbols);
    for position := 0 to |symbols|
      invariant bits < 8 && |values| == position && |out| <= n
      invariant Reads(symbols, values) && Absorbed(values, out, buffer, bits)
      invariant position == |symbols| > 0 ==> !PaddingSet(values[position - 1], padding)
    {
      var symbol := SymbolValue(symbols[position]);
      if symbol.None? {
        NotRead(symbols, n, position);
        return None;
      }
      ReadsOne(symbols, values, symbol.value);
      if position == |symbols| - 1 && PaddingSet(symbol.value, padding) {
        Rejected(symbols, values + [symbol.value], n);
        return None;
      }
      ReadSymbol(values, out, buffer, bits, symbol.value);
      values := values + [symbol.value];
      buffer := Or(Shl(buffer, 5), Widen(SymbolBits(symbol.value)));
      bits := bits + 5;
      Progress(position + 1, |symbols|, |out|, bits, n);
      if bits >= 8 {
        bits := bits - 8;
        WriteByte(values, out, buffer, bits);
        out := out + [ByteOf(Youngest(Shr(buffer, bits), 8))];
      }
    }
    Progress(|symbols|, |symbols|, |out|, bits, n);
    AllAbsorbed(symbols, values, out, buffer);
    r := if |out| == n then Some(out) else None;
  }

  // ----- Pairing codes and recovery keys -----

  /** The UTF-8 length of a string, `str::len`. */
  function ByteLength(s: string): (n: nat)
    ensures |s| <= n
  {
    if s == [] then 0 else ByteLength(s[..|s| - 1]) + CharLength(s[|s| - 1])
  }

  function CharLength(c: char): nat {
    if c as nat < 0x80 then 1 else if c as nat < 0x800 then 2 else if c as nat < 0x10000 then 3 else 4
  }

  /** `u8::to_ascii_uppercase`, character by character. */
  function Uppercase(s: string): (u: string)
    ensures |u| == |s|
  {
    seq(|s|, i requires 0 <= i < |s| => UppercaseChar(s[i]))
  }

  function UppercaseChar(c: char): char {
    if 'a' <= c <= 'z' then 'A' + (c - 'a') else c
  }

  function EncodePairingCode(code: seq<Byte>): string
    requires |code| == PAIRING_CODE_BYTES
  {
    Encoded(code, 8)
  }

  /** Eight symbols of any letter case, in one piece or as two groups of four. An
      input with a character outside ASCII has fewer characters than bytes and
      never decodes, as none of its bytes is a symbol. */
  function ParsePairingCode(input: string): (r: Option<seq<Byte>>)
    ensures r.Some? ==> |r.value| == PAIRING_CODE_BYTES
  {
    if ByteLength(input) == 8 then Decoded(Uppercase(input), PAIRING_CODE_BYTES)
    else if ByteLength(input) == 9 && |input| == 9 && input[4] == '-' then
      Decoded(Uppercase(input[..4] + input[5..]), PAIRING_CODE_BYTES)
    else None
  }

  function EncodeRecoveryKey(key: seq<Byte>): string
    requires |key| == RECOVERY_KEY_BYTES
  {
    Encoded(key, RECOVERY_KEY_SYMBOLS)
  }

  /** Only the canonical form: 26 uppercase symbols, padding bits zero. */
  function ParseRecoveryKey(input: string): (r: Option<seq<Byte>>)
    ensures r.Some? ==> |r.value| == RECOVERY_KEY_BYTES
  {
    if ByteLength(input) != RECOVERY_KEY_SYMBOLS then None else Decoded(input, RECOVERY_KEY_BYTES)
  }

  predicate Ascii(s: string) {
    forall i :: 0 <= i < |s| ==> s[i] as nat < 0x80
  }

  lemma {:induction false} AsciiLength(s: string)
    requires Ascii(s)
    ensures ByteLength(s) == |s|
  {
    if s != [] { AsciiLength(s[..|s| - 1]); }
  }

  lemma {:induction false} AsciiWhole(s: string)
    requires ByteLength(s) == |s|
    ensures Ascii(s)
  {
    if s != [] { AsciiWhole(s[..|s| - 1]); }
  }

  lemma SymbolsAreAscii(s: string)
    requires AllSymbols(s)
    ensures Ascii(s) && Uppercase(s) == s
  {
  }

  /** A recovery key has exactly one accepted spelling. */
  lemma RecoveryKeySpelling(input: string, key: seq<Byte>)
    requires |key| == RECOVERY_KEY_BYTES
    ensures ParseRecoveryKey(input) == Some(key) <==> input == EncodeRecoveryKey(key)
  {
    if ParseRecoveryKey(input) == Some(key) {
      Canonical(input, RECOVERY_KEY_BYTES);
    }
    RoundTrip(key, RECOVERY_KEY_SYMBOLS);
    SymbolsAreAscii(EncodeRecoveryKey(key));
    AsciiLength(EncodeRecoveryKey(key));
  }

  /** The accepted spellings of a pairing code: its symbols in any letter case,
      with or without the hyphen in the middle. */
  predicate SpellsPairingCode(input: string, code: seq<Byte>)
    requires |code| == PAIRING_CODE_BYTES
  {
    || Uppercase(input) == EncodePairingCode(code)
    || (|input| == 9 && input[4] == '-' && Uppercase(input[..4] + input[5..]) == EncodePairingCode(code))
  }

  lemma UppercaseAscii(s: string)
    ensures Ascii(Uppercase(s)) <==> Ascii(s)
  {
    forall i | 0 <= i < |s| ensures Uppercase(s)[i] as nat < 0x80 <==> s[i] as nat < 0x80 {
      var c, u := s[i], Uppercase(s)[i];
      assert u == UppercaseChar(c);
    }
    if !Ascii(s) {
      var i :| 0 <= i < |s| && s[i] as nat >= 0x80;
      assert Uppercase(s)[i] as nat >= 0x80;
    }
  }

  lemma HyphenatedLength(input: string)
    requires |input| == 9 && input[4] == '-' && Ascii(input[..4] + input[5..])
    ensures ByteLength(input) == 9
  {
    var rest := input[..4] + input[5..];
    forall i | 0 <= i < 9 ensures input[i] as nat < 0x80 {
      if i < 4 { assert rest[i] == input[i]; } else if i > 4 { assert rest[i - 1] == input[i]; }
    }
    AsciiLength(input);
  }

  lemma PairingCodeParses(input: string, code: seq<Byte>)
    requires |code| == PAIRING_CODE_BYTES && SpellsPairingCode(input, code)
    ensures ParsePairingCode(input) == Some(code)
  {
    RoundTrip(code, 8);
    EncodedStream(code, 8);
    SymbolsAreAscii(EncodePairingCode(code));
    if Uppercase(input) == EncodePairingCode(code) {
      UppercaseAscii(input);
      AsciiLength(input);
    } else {
      UppercaseAscii(input[..4] + input[5..]);
      HyphenatedLength(input);
    }
  }

  lemma PairingCodeSpelling(input: string, code: seq<Byte>)
    requires |code| == PAIRING_CODE_BYTES
    ensures ParsePairingCode(input) == Some(code) <==> SpellsPairingCode(input, code)
  {
    if SpellsPairingCode(input, code) {
      PairingCodeParses(input, code);
    } else if ParsePairingCode(input) == Some(code) {
      Canonical(if ByteLength(input) == 8 then Uppercase(input) else Uppercase(input[..4] + input[5..]), PAIRING_CODE_BYTES);
    }
  }
}

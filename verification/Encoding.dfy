/** utils/encoding.go, api/servicepb/height.go and api/servicepb/checkpoint_key.go:
    the order-preserving variable-length encoding of uint64 numbers, and the two keys
    that are built from it. */
module Encoding {
  import opened Common

  type Byte = b: int | 0 <= b < 256

  datatype Decoded = Decoded(number: nat, consumed: nat) | Malformed

  // ---------------------------------------------------------------------
  // Bytewise order, as bytes.Compare and a BYTEA column compare.

  predicate Less(a: seq<Byte>, b: seq<Byte>) {
    b != [] && (a == [] || a[0] < b[0] || (a[0] == b[0] && Less(a[1..], b[1..])))
  }

  lemma {:induction false} LessOfConcat(a: seq<Byte>, x: seq<Byte>, b: seq<Byte>, y: seq<Byte>)
    requires !(a <= b) && !(b <= a)
    ensures Less(a + x, b + y) == Less(a, b)
  {
    assert a != [] && b != [];
    if a[0] == b[0] {
      assert a == [a[0]] + a[1..] && b == [b[0]] + b[1..];
      LessOfConcat(a[1..], x, b[1..], y);
      assert (a + x)[1..] == a[1..] + x && (b + y)[1..] == b[1..] + y;
    }
  }

  lemma {:induction false} LessAfterPrefix(a: seq<Byte>, x: seq<Byte>, y: seq<Byte>)
    ensures Less(a + x, a + y) == Less(x, y)
  {
    if a == [] {
      assert a + x == x && a + y == y;
    } else {
      LessAfterPrefix(a[1..], x, y);
      assert (a + x)[1..] == a[1..] + x && (a + y)[1..] == a[1..] + y;
    }
  }

  // ---------------------------------------------------------------------
  // Base-256 digits, most significant first.

  function Pow256(k: nat): (p: nat)
    ensures p >= 1
  {
    if k == 0 then 1 else 256 * Pow256(k - 1)
  }

  function Value(s: seq<Byte>): (v: nat)
    ensures v < Pow256(|s|)
  {
    if s == [] then 0 else 256 * Value(s[..|s| - 1]) + s[|s| - 1]
  }

  function Digits(n: nat): seq<Byte> {
    if n == 0 then [] else Digits(n / 256) + [n % 256]
  }

  /** The encoding: a length byte, then the digits without leading zeros. */
  function Encode(n: Uint64): seq<Byte> {
    DigitsBound(n);
    [|Digits(n)|] + Digits(n)
  }

  lemma ValueOfSnoc(s: seq<Byte>, b: Byte)
    ensures Value(s + [b]) == 256 * Value(s) + b
  {
    assert (s + [b])[..|s|] == s;
  }

  lemma {:induction false} ValueOfDigits(n: nat)
    ensures Value(Digits(n)) == n
    ensures n > 0 ==> Digits(n) != [] && Digits(n)[0] != 0
  {
    if n > 0 {
      ValueOfDigits(n / 256);
      ValueOfSnoc(Digits(n / 256), n % 256);
    }
  }

  lemma SplitByte(v: nat, b: Byte)
    ensures (v * 256 + b) / 256 == v && (v * 256 + b) % 256 == b
  {
  }

  lemma {:induction false} DigitsOfValue(s: seq<Byte>)
    requires s != [] ==> s[0] != 0
    ensures Digits(Value(s)) == s
  {
    if s != [] {
      var front, last := s[..|s| - 1], s[|s| - 1];
      assert s == front + [last];
      ValueOfSnoc(front, last);
      DigitsOfValue(front);
      SplitByte(Value(front), last);
    }
  }

  lemma {:induction false} LengthOfDigits(n: nat, k: nat)
    ensures n < Pow256(k) ==> |Digits(n)| <= k
  {
    if n < Pow256(k) && n > 0 {
      assert k > 0;
      LengthOfDigits(n / 256, k - 1);
    }
  }

  lemma EightBytes()
    ensures Pow256(8) == TWO_TO_THE_64
  {
    assert Pow256(2) == 0x1_0000;
    assert Pow256(4) == 0x1_0000_0000;
    assert Pow256(6) == 0x1_0000_0000_0000;
  }

  lemma DigitsBound(n: nat)
    ensures n < TWO_TO_THE_64 ==> |Digits(n)| <= 8
  {
    EightBytes();
    LengthOfDigits(n, 8);
  }

  lemma {:induction false} LessOfSnoc(a: seq<Byte>, x: Byte, b: seq<Byte>, y: Byte)
    requires |a| == |b|
    ensures Less(a + [x], b + [y]) <==> Less(a, b) || (a == b && x < y)
  {
    if a != [] {
      LessOfSnoc(a[1..], x, b[1..], y);
      assert (a + [x])[1..] == a[1..] + [x] && (b + [y])[1..] == b[1..] + [y];
      assert a == [a[0]] + a[1..] && b == [b[0]] + b[1..];
    }
  }

  lemma {:induction false} SameLengthOrder(a: seq<Byte>, b: seq<Byte>)
    requires |a| == |b|
    ensures Less(a, b) <==> Value(a) < Value(b)
    ensures a == b <==> Value(a) == Value(b)
  {
    if a != [] {
      var k := |a| - 1;
      assert a == a[..k] + [a[k]] && b == b[..k] + [b[k]];
      SameLengthOrder(a[..k], b[..k]);
      LessOfSnoc(a[..k], a[k], b[..k], b[k]);
    }
  }

  lemma {:induction false} LongerIsLarger(m: nat, n: nat)
    requires m <= n
    ensures |Digits(m)| <= |Digits(n)|
  {
    if m > 0 {
      LongerIsLarger(m / 256, n / 256);
    }
  }

  // ---------------------------------------------------------------------
  // Main laws of the encoding.

  /** Byte order of the codes is number order. */
  lemma EncodePreservesOrder(m: Uint64, n: Uint64)
    ensures Less(Encode(m), Encode(n)) <==> m < n
  {
    var a, b := Digits(m), Digits(n);
    ValueOfDigits(m);
    ValueOfDigits(n);
    if m <= n { LongerIsLarger(m, n); }
    if n <= m { LongerIsLarger(n, m); }
    assert Encode(m)[1..] == a && Encode(n)[1..] == b;
    if |a| == |b| { SameLengthOrder(a, b); }
  }

  /** No code is a prefix of another. */
  lemma EncodePrefixFree(m: Uint64, n: Uint64)
    ensures Encode(m) <= Encode(n) <==> m == n
  {
    ValueOfDigits(m);
    ValueOfDigits(n);
    if Encode(m) <= Encode(n) {
      assert Encode(m)[0] == Encode(n)[0];
      assert Encode(m)[1..] == Encode(n)[1..|Encode(m)|] == Encode(n)[1..];
    }
  }

  /** Decoding a code followed by any suffix gives back the number and the code's length. */
  lemma DecodeEncode(n: Uint64, suffix: seq<Byte>)
    ensures Decode(Encode(n) + suffix) == Decoded(n, |Encode(n)|)
  {
    DigitsBound(n);
    ValueOfDigits(n);
    var code := Encode(n) + suffix;
    var size := |Digits(n)|;
    assert code[0] == size && code[1..size + 1] == Digits(n);
    VarintOfOneByte(code);
  }

  /** Decoding is not injective: an input need not be the code of the number it decodes to.
      It is one exactly when its payload is empty or has no leading zero byte. */
  lemma DecodedIsCanonical(b: seq<Byte>)
    requires Decode(b).Decoded?
    ensures 1 <= Decode(b).consumed <= |b| && Decode(b).number < TWO_TO_THE_64
    ensures Encode(Decode(b).number) == b[..Decode(b).consumed]
            <==> (Decode(b).consumed == 1 || b[1] != 0)
  {
    VarintOfOneByte(b);
    var payload := b[1..Decode(b).consumed];
    PayloadFits(payload);
    var n := Value(payload);
    ValueOfDigits(n);
    if payload == [] || payload[0] != 0 {
      DigitsOfValue(payload);
      assert b[..Decode(b).consumed] == [b[0]] + payload;
    } else {
      assert n > 0 ==> Encode(n)[1] != 0;
      assert n == 0 ==> |Encode(n)| == 1;
    }
  }

  lemma NonCanonicalDecodes()
    ensures Decode([1, 0]) == Decoded(0, 2) && Encode(0) == [0] && Decode([0]) == Decoded(0, 1)
  {
    var b: seq<Byte> := [1, 0];
    VarintOfOneByte(b);
    assert b[1..2] == [0];
    assert Value([0]) == 0;
    var z: seq<Byte> := [0];
    VarintOfOneByte(z);
    assert z[1..1] == [];
  }

  lemma PayloadFits(s: seq<Byte>)
    requires |s| <= 8
    ensures Value(s) < TWO_TO_THE_64
  {
    PowMonotone(|s|, 8);
    EightBytes();
  }

  lemma {:induction false} PowMonotone(i: nat, j: nat)
    requires i <= j
    ensures Pow256(i) <= Pow256(j)
  {
    if i < j { PowMonotone(i, j - 1); }
  }

  // ---------------------------------------------------------------------
  // Protobuf varints, as far as the length byte uses them.

  /** The varint that starts at byte i: its value and the position behind it, or Malformed for a truncated
      or overlong one. */
  function Varint(b: seq<Byte>, i: nat): (r: Decoded)
    requires i <= |b|
    ensures r.Decoded? ==> i < r.consumed <= |b|
    decreases |b| - i
  {
    if i == |b| || i == 10 then Malformed
    else if b[i] < 128 then
      if i == 9 && b[i] > 1 then Malformed else Decoded(b[i], i + 1)
    else
      var rest := Varint(b, i + 1);
      if rest.Malformed? then rest else Decoded(b[i] - 128 + 128 * rest.number, rest.consumed)
  }

  lemma VarintOfOneByte(b: seq<Byte>)
    ensures Varint(b, 0).Decoded? && Varint(b, 0).consumed == 1 <==> b != [] && b[0] < 128
    ensures b != [] && b[0] < 128 ==> Varint(b, 0).number == b[0]
  {
    if b != [] && b[0] >= 128 {
      var rest := Varint(b, 1);
    }
  }

  function Decode(b: seq<Byte>): Decoded {
    var size := Varint(b, 0);
    if size.Malformed? || size.consumed != 1 then Malformed
    else if size.number > 8 || size.number > |b| - 1 then Malformed
    else Decoded(Value(b[1..size.number + 1]), size.number + 1)
  }

  // ---------------------------------------------------------------------
  // The methods of utils/encoding.go.

  lemma {:induction false} LeadingZeros(s: seq<Byte>, k: nat)
    requires k <= |s| && forall i :: 0 <= i < k ==> s[i] == 0
    ensures Value(s) == Value(s[k..])
  {
    if k < |s| {
      LeadingZeros(s[..|s| - 1], k);
      assert s[..|s| - 1][k..] == s[k..][..|s| - 1 - k];
    } else if k > 0 {
      LeadingZeros(s[..k - 1], k - 1);
    }
  }

  function BigEndian(n: nat, width: nat): (s: seq<Byte>)
    ensures |s| == width
  {
    if width == 0 then [] else BigEndian(n / 256, width - 1) + [n % 256]
  }

  lemma {:induction false} ValueOfBigEndian(n: nat, width: nat)
    ensures n < Pow256(width) ==> Value(BigEndian(n, width)) == n
  {
    if width > 0 {
      var q, r := n / 256, n % 256;
      assert n == q * 256 + r;
      ValueOfBigEndian(q, width - 1);
      ValueOfSnoc(BigEndian(q, width - 1), r);
    }
  }

  /** binary.BigEndian.PutUint64 */
  method PutUint64(bytes: array<Byte>, number: Uint64)
    requires bytes.Length == 8
    modifies bytes
    ensures bytes[..] == BigEndian(number, 8)
  {
    var i, rest := 8, number;
    while i > 0
      invariant 0 <= i <= 8 && 0 <= rest
      invariant BigEndian(rest, i) + bytes[i..] == BigEndian(number, 8)
    {
      i := i - 1;
      ghost var tail := bytes[i + 1..];
      bytes[i] := rest % 256;
      assert bytes[i..] == [rest % 256] + tail;
      rest := rest / 256;
      assert BigEndian(rest, i) + bytes[i..] == (BigEndian(rest, i) + [bytes[i]]) + tail;
    }
    assert bytes[0..] == bytes[..];
  }

  method EncodeOrderPreservingVarUint64(number: Uint64) returns (encodedBytes: seq<Byte>)
    ensures encodedBytes == Encode(number)
  {
    var bytes := new Byte[8];
    PutUint64(bytes, number);
    EightBytes();
    ValueOfBigEndian(number, 8);
    var startingIndex, size := 0, 0;
    var i := 0;
    while i < 8
      invariant 0 <= i <= 8
      invariant forall j :: 0 <= j < i ==> bytes[j] == 0
      invariant startingIndex == 0 && size == 0
    {
      if bytes[i] != 0 {
        startingIndex, size := i, 8 - i;
        break;
      }
      i := i + 1;
    }
    LeadingZeros(bytes[..], i);
    assert bytes[..][i..] == bytes[i..];
    DigitsOfValue(bytes[i..]);
    // size <= 8, so its varint is the one byte [size].
    encodedBytes := [size] + bytes[startingIndex..startingIndex + size];
  }

  method DecodeOrderPreservingVarUint64(bytes: seq<Byte>) returns (r: Decoded)
    ensures r == Decode(bytes)
  {
    VarintOfOneByte(bytes);
    var s := Varint(bytes, 0);
    if s.Malformed? || s.consumed != 1 {
      return Malformed;
    } else if s.number > 8 {
      return Malformed;
    } else if s.number > |bytes| - 1 {
      return Malformed;
    }
    var size := s.number;
    var decodedBytes := new Byte[8](_ => 0);
    var i := 0;
    while i < size
      invariant 0 <= i <= size
      invariant forall j :: 0 <= j < 8 - size ==> decodedBytes[j] == 0
      invariant decodedBytes[8 - size..8 - size + i] == bytes[1..1 + i]
    {
      decodedBytes[8 - size + i] := bytes[1 + i];
      assert decodedBytes[8 - size..8 - size + i + 1] == decodedBytes[8 - size..8 - size + i] + [bytes[1 + i]];
      i := i + 1;
    }
    assert decodedBytes[..][8 - size..] == bytes[1..size + 1];
    LeadingZeros(decodedBytes[..], 8 - size);
    r := Decoded(Value(decodedBytes[..]), size + 1);
  }

  // ---------------------------------------------------------------------
  // Heights: api/servicepb/height.go.

  datatype DecodedHeight = DecodedHeight(height: Height, consumed: nat) | BadHeight

  predicate Before(g: Height, h: Height) {
    g.blockNum < h.blockNum || (g.blockNum == h.blockNum && g.txNum < h.txNum)
  }

  function ToBytes(h: Height): seq<Byte> {
    Encode(h.blockNum) + Encode(h.txNum)
  }

  /** The transaction number is cut to 32 bits, as the conversion in the source does. */
  function NewHeightFromBytes(b: seq<Byte>): DecodedHeight {
    var blockNum := Decode(b);
    if blockNum.Malformed? then BadHeight else
    DecodedIsCanonical(b);
    var txNum := Decode(b[blockNum.consumed..]);
    if txNum.Malformed? then BadHeight else
    DecodedHeight(Height(blockNum.number, txNum.number % TWO_TO_THE_32), blockNum.consumed + txNum.consumed)
  }

  /** Height bytes sort by block, then by transaction. */
  lemma HeightBytesOrder(g: Height, h: Height)
    ensures Less(ToBytes(g), ToBytes(h)) <==> Before(g, h)
  {
    EncodePreservesOrder(g.blockNum, h.blockNum);
    EncodePreservesOrder(g.txNum, h.txNum);
    if g.blockNum == h.blockNum {
      LessAfterPrefix(Encode(g.blockNum), Encode(g.txNum), Encode(h.txNum));
    } else {
      EncodePrefixFree(g.blockNum, h.blockNum);
      EncodePrefixFree(h.blockNum, g.blockNum);
      LessOfConcat(Encode(g.blockNum), Encode(g.txNum), Encode(h.blockNum), Encode(h.txNum));
    }
  }

  /** Height bytes decode back exactly, whatever follows them. */
  lemma HeightRoundTrip(h: Height, suffix: seq<Byte>)
    ensures NewHeightFromBytes(ToBytes(h) + suffix) == DecodedHeight(h, |ToBytes(h)|)
  {
    var b := ToBytes(h) + suffix;
    var rest := Encode(h.txNum) + suffix;
    assert b == Encode(h.blockNum) + rest;
    DecodeEncode(h.blockNum, rest);
    assert b[|Encode(h.blockNum)|..] == rest;
    DecodeEncode(h.txNum, suffix);
  }

  // ---------------------------------------------------------------------
  // Checkpoint keys: api/servicepb/checkpoint_key.go.

  function BlockNumFromCheckpointKey(key: seq<Byte>): Decoded {
    var d := Decode(key);
    if d.Decoded? && d.consumed == |key| then d else Malformed
  }

  predicate NamesBlock(key: seq<Byte>, n: Uint64) {
    BlockNumFromCheckpointKey(key) == Decoded(n, |key|)
  }

  /** A key is accepted exactly when it decodes and nothing follows the block number. */
  lemma AcceptedIff(key: seq<Byte>)
    ensures BlockNumFromCheckpointKey(key).Decoded? <==> Decode(key).Decoded? && Decode(key).consumed == |key|
    ensures forall n: Uint64, suffix: seq<Byte> :: suffix != [] && key == Encode(n) + suffix ==>
              BlockNumFromCheckpointKey(key).Malformed?
  {
    forall n: Uint64, suffix: seq<Byte> | suffix != [] && key == Encode(n) + suffix
      ensures BlockNumFromCheckpointKey(key).Malformed?
    {
      DecodeEncode(n, suffix);
    }
  }

  /** A key accepted for block n is CheckpointKey(n) itself exactly when it has no leading zero byte. */
  lemma CheckpointKeyCanonicalIff(key: seq<Byte>, n: Uint64)
    requires NamesBlock(key, n)
    ensures key == Encode(n) <==> |key| == 1 || key[1] != 0
    ensures NamesBlock(Encode(n), n)
  {
    DecodedIsCanonical(key);
    assert key[..|key|] == key;
    DecodeEncode(n, []);
    assert Encode(n) + [] == Encode(n);
  }

  /** The key of n whose payload has zeros more leading zero bytes than it needs. */
  function KeyWith(n: Uint64, zeros: nat): seq<Byte>
    requires zeros + |Digits(n)| <= 8
  {
    [zeros + |Digits(n)|] + (Zeros(zeros) + Digits(n))
  }

  function Zeros(k: nat): seq<Byte> {
    seq(k, _ => 0)
  }

  lemma PaddedValue(n: nat, k: nat)
    ensures Value(Zeros(k) + Digits(n)) == n
  {
    LeadingZeros(Zeros(k) + Digits(n), k);
    assert (Zeros(k) + Digits(n))[k..] == Digits(n);
    ValueOfDigits(n);
  }

  lemma PaddedNames(n: Uint64, zeros: nat)
    requires zeros + |Digits(n)| <= 8
    ensures NamesBlock(KeyWith(n, zeros), n)
  {
    var key := KeyWith(n, zeros);
    VarintOfOneByte(key);
    assert key[1..|key|] == Zeros(zeros) + Digits(n);
    PaddedValue(n, zeros);
  }

  lemma NamedIsPadded(key: seq<Byte>, n: Uint64) returns (zeros: nat)
    requires NamesBlock(key, n)
    ensures zeros + |Digits(n)| <= 8 && key == KeyWith(n, zeros)
  {
    VarintOfOneByte(key);
    var payload := key[1..|key|];
    assert key == [key[0]] + payload;
    LengthOfDigits(n, |payload|);
    zeros := |payload| - |Digits(n)|;
    PaddedValue(n, zeros);
    SameLengthOrder(payload, Zeros(zeros) + Digits(n));
  }

  /** The keys accepted for block n are those with some number of superfluous leading zero bytes, and no two
      of them are equal: a key is determined by its block and that number. */
  lemma KeysOfBlock(key: seq<Byte>, n: Uint64)
    ensures NamesBlock(key, n) <==> exists zeros: nat :: zeros + |Digits(n)| <= 8 && key == KeyWith(n, zeros)
    ensures forall i: nat, j: nat ::
              i + |Digits(n)| <= 8 && j + |Digits(n)| <= 8 && KeyWith(n, i) == KeyWith(n, j) ==> i == j
  {
    if NamesBlock(key, n) {
      var zeros := NamedIsPadded(key, n);
    }
    forall zeros: nat | zeros + |Digits(n)| <= 8 ensures NamesBlock(KeyWith(n, zeros), n) { PaddedNames(n, zeros); }
    forall i: nat, j: nat | i + |Digits(n)| <= 8 && j + |Digits(n)| <= 8 && KeyWith(n, i) == KeyWith(n, j)
      ensures i == j
    {
      assert KeyWith(n, i)[0] == i + |Digits(n)| && KeyWith(n, j)[0] == j + |Digits(n)|;
    }
  }

  const TWO_TO_THE_56 := 0x100_0000_0000_0000

  lemma SevenDigits(n: nat)
    ensures n < TWO_TO_THE_56 <==> |Digits(n)| <= 7
  {
    assert Pow256(7) == TWO_TO_THE_56 by {
      assert Pow256(3) == 0x100_0000;
      assert Pow256(5) == 0x100_0000_0000;
    }
    LengthOfDigits(n, 7);
    ValueOfDigits(n);
    if |Digits(n)| <= 7 { PowMonotone(|Digits(n)|, 7); }
  }

  /** A block has a single key exactly when its number takes all eight bytes. */
  lemma OneKeyIff(n: Uint64)
    ensures (forall key :: NamesBlock(key, n) ==> key == Encode(n)) <==> n >= TWO_TO_THE_56
  {
    SevenDigits(n);
    DigitsBound(n);
    if n < TWO_TO_THE_56 {
      PaddedNames(n, 1);
      assert |KeyWith(n, 1)| != |Encode(n)|;
    } else {
      forall key | NamesBlock(key, n) ensures key == Encode(n) {
        var zeros := NamedIsPadded(key, n);
        assert Zeros(0) + Digits(n) == Digits(n);
      }
    }
  }

  lemma TwoKeysOneBlock()
    ensures NamesBlock([1, 5], 5) && NamesBlock([2, 0, 5], 5)
  {
    assert Digits(5) == [5];
    PaddedNames(5, 0);
    assert KeyWith(5, 0) == [1, 5];
    PaddedNames(5, 1);
    assert KeyWith(5, 1) == [2, 0, 5];
  }
}

/**
 * Base58 and TRON addresses: the encoder, the positional decoder of
 * draft-msporny-base58 (section 4), and the shape of an encoded address.
 */
module Base58 {
  import opened Options

  newtype byte = x: int | 0 <= x < 256

  const ALPHABET := "123456789" + "ABCDEFGH" + "JKLMN" + "PQRSTUVWXYZ" + "abcdefghijk" + "mnopqrstuvwxyz"

  // --------------------------------------------------------------------- positions

  function Power(base: nat, n: nat): nat { if n == 0 then 1 else base * Power(base, n - 1) }

  /** The number a byte string stands for, most significant byte first. */
  function Number(bytes: seq<byte>): nat {
    if bytes == [] then 0 else 256 * Number(bytes[..|bytes| - 1]) + bytes[|bytes| - 1] as int
  }

  function Symbols(n: nat): string {
    if n == 0 then "" else Symbols(n / 58) + [ALPHABET[n % 58]]
  }

  function LeadingZeros(bytes: seq<byte>): nat {
    if bytes == [] || bytes[0] != 0 then 0 else 1 + LeadingZeros(bytes[1..])
  }

  function Repeat(c: char, n: nat): string { seq(n, _ => c) }

  function Encoded(bytes: seq<byte>): string { Repeat(ALPHABET[0], LeadingZeros(bytes)) + Symbols(Number(bytes)) }

  // --------------------------------------------------------------- the encoder itself

  function Reversed(s: string): string { seq(|s|, k requires 0 <= k < |s| => s[|s| - 1 - k]) }

  method ReverseInPlace(a: array<char>)
    modifies a
    ensures a[..] == Reversed(old(a[..]))
  {
    var left, right := 0, a.Length - 1;
    while left < right
      invariant 0 <= left <= right + 1 && left + right == a.Length - 1
      invariant forall k :: 0 <= k < left ==> a[k] == old(a[a.Length - 1 - k]) && a[a.Length - 1 - k] == old(a[k])
      invariant forall k :: left <= k <= right ==> a[k] == old(a[k])
    {
      a[left], a[right] := a[right], a[left];
      left, right := left + 1, right - 1;
    }
  }

  method BigEndian(bytes: seq<byte>) returns (n: nat)
    ensures n == Number(bytes)
  {
    n := 0;
    for i := 0 to |bytes|
      invariant n == Number(bytes[..i])
    {
      assert bytes[..i + 1][..i] == bytes[..i];
      n := 256 * n + bytes[i] as int;
    }
    assert bytes[..|bytes|] == bytes;
  }

  lemma {:induction false} ZerosSoFar(bytes: seq<byte>, i: nat)
    requires i <= |bytes| && forall k :: 0 <= k < i ==> bytes[k] == 0
    ensures LeadingZeros(bytes) == i + LeadingZeros(bytes[i..])
  {
    if i > 0 {
      ZerosSoFar(bytes[1..], i - 1);
      assert bytes[1..][i - 1..] == bytes[i..];
    }
  }

  /** The symbols of a number, least significant first. */
  method Divide(n: nat) returns (encoded: string)
    ensures Reversed(encoded) == Symbols(n)
  {
    var integer := n;
    encoded := [];
    while integer > 0
      invariant Symbols(n) == Symbols(integer) + Reversed(encoded)
    {
      assert Reversed(encoded + [ALPHABET[integer % 58]]) == [ALPHABET[integer % 58]] + Reversed(encoded);
      encoded := encoded + [ALPHABET[integer % 58]];
      integer := integer / 58;
    }
    assert Reversed(encoded) == Symbols(n);
  }

  /** Adds a symbol for every leading zero byte. */
  method Pad(before: string, bytes: seq<byte>) returns (encoded: string)
    ensures Reversed(encoded) == Repeat(ALPHABET[0], LeadingZeros(bytes)) + Reversed(before)
  {
    encoded := before;
    var i := 0;
    while i < |bytes| && bytes[i] == 0
      invariant i <= |bytes| && forall k :: 0 <= k < i ==> bytes[k] == 0
      invariant encoded == before + Repeat(ALPHABET[0], i)
    {
      encoded := encoded + [ALPHABET[0]];
      i := i + 1;
    }
    ZerosSoFar(bytes, i);
  }

  method Encode(bytes: seq<byte>) returns (text: string)
    ensures text == Encoded(bytes)
  {
    var integer := BigEndian(bytes);
    var encoded := Divide(integer);
    encoded := Pad(encoded, bytes);
    var buffer := new char[|encoded|](k requires 0 <= k < |encoded| => encoded[k]);
    assert buffer[..] == encoded;
    ReverseInPlace(buffer);
    text := buffer[..];
  }

  /** `tronBase58FromHex20`; the checksum is a parameter. */
  method TronAddress(hash: seq<byte>, checksum: seq<byte>) returns (text: string)
    ensures text == Encoded([0x41] + hash + checksum)
  {
    text := Encode([0x41] + hash + checksum);
  }

  // --------------------------------------------------------------------- the decoder

  function Find(c: char, k: nat): Option<nat>
    requires k <= |ALPHABET|
    decreases |ALPHABET| - k
  {
    if k == |ALPHABET| then None else if ALPHABET[k] == c then Some(k) else Find(c, k + 1)
  }

  function ValueOf(s: string): Option<nat> {
    if s == "" then Some(0)
    else
      match (ValueOf(s[..|s| - 1]), Find(s[|s| - 1], 0))
      case (Some(v), Some(d)) => Some(58 * v + d)
      case _ => None
  }

  function ByteString(n: nat): seq<byte> { if n == 0 then [] else ByteString(n / 256) + [(n % 256) as byte] }

  function LeadingOnes(s: string): nat { if s == "" || s[0] != ALPHABET[0] then 0 else 1 + LeadingOnes(s[1..]) }

  function Zeros(n: nat): seq<byte> { seq(n, _ => 0) }

  function Decoded(s: string): Option<seq<byte>> {
    match ValueOf(s) case None => None case Some(v) => Some(Zeros(LeadingOnes(s)) + ByteString(v))
  }

  // -------------------------------------------------------------------- round trip

  predicate InClass(c: char) {
    '1' <= c <= '9' || 'A' <= c <= 'H' || 'J' <= c <= 'N' || 'P' <= c <= 'Z' || 'a' <= c <= 'k' || 'm' <= c <= 'z'
  }

  function Chars(c: char, n: nat): string
    requires c as int + n < 0xD800
  {
    seq(n, i requires 0 <= i < n => (c as int + i) as char)
  }

  lemma AlphabetIsClasses()
    ensures ALPHABET == Chars('1', 9) + Chars('A', 8) + Chars('J', 5) + Chars('P', 11) + Chars('a', 11) + Chars('m', 14)
  {
    assert "123456789" == Chars('1', 9);
    assert "ABCDEFGH" == Chars('A', 8);
    assert "JKLMN" == Chars('J', 5);
    assert "PQRSTUVWXYZ" == Chars('P', 11);
    assert "abcdefghijk" == Chars('a', 11);
    assert "mnopqrstuvwxyz" == Chars('m', 14);
  }

  function CodeOf(d: nat): int {
    if d < 9 then '1' as int + d
    else if d < 17 then 'A' as int + d - 9
    else if d < 22 then 'J' as int + d - 17
    else if d < 33 then 'P' as int + d - 22
    else if d < 44 then 'a' as int + d - 33
    else 'm' as int + d - 44
  }

  lemma SymbolCode(d: nat)
    requires d < 58
    ensures ALPHABET[d] as int == CodeOf(d) && InClass(ALPHABET[d])
  {
    AlphabetIsClasses();
  }

  /** The alphabet is in ascending order, so no symbol occurs twice in it. */
  lemma Ordered(i: nat, j: nat)
    requires i < j < 58
    ensures ALPHABET[i] < ALPHABET[j]
  {
    SymbolCode(i);
    SymbolCode(j);
  }

  lemma {:induction false} FindsSymbol(d: nat, k: nat)
    requires k <= d < 58
    ensures Find(ALPHABET[d], k) == Some(d)
    decreases d - k
  {
    if k < d {
      Ordered(k, d);
      FindsSymbol(d, k + 1);
    }
  }

  lemma {:induction false} ValueOfSymbols(ones: nat, n: nat)
    ensures ValueOf(Repeat(ALPHABET[0], ones) + Symbols(n)) == Some(n)
    decreases n, ones
  {
    var s := Repeat(ALPHABET[0], ones) + Symbols(n);
    if n > 0 {
      assert s[..|s| - 1] == Repeat(ALPHABET[0], ones) + Symbols(n / 58);
      ValueOfSymbols(ones, n / 58);
      FindsSymbol(n % 58, 0);
    } else if ones > 0 {
      assert s[..|s| - 1] == Repeat(ALPHABET[0], ones - 1) + Symbols(0);
      ValueOfSymbols(ones - 1, 0);
      FindsSymbol(0, 0);
    }
  }

  lemma Divided(n: nat, d: nat, p: nat)
    requires d * (58 * p) <= n < (d + 1) * (58 * p)
    ensures d * p <= n / 58 < (d + 1) * p
  {
    var low, high := d * p, (d + 1) * p;
    assert d * (58 * p) == 58 * low && (d + 1) * (58 * p) == 58 * high;
  }

  lemma {:induction false} PowerPositive(k: nat)
    ensures Power(58, k) > 0
  {
    if k > 0 { PowerPositive(k - 1); }
  }

  /** Symbols of a number between d and d + 1 times a power of 58. */
  lemma {:induction false} LeadingSymbol(n: nat, k: nat, d: nat)
    requires 0 < d < 58 && d * Power(58, k) <= n < (d + 1) * Power(58, k)
    ensures |Symbols(n)| == k + 1 && Symbols(n)[0] == ALPHABET[d]
    decreases k
  {
    if k == 0 {
      assert n == d && Symbols(n / 58) == "";
    } else {
      var p := Power(58, k - 1);
      Divided(n, d, p);
      PowerPositive(k);
      LeadingSymbol(n / 58, k - 1, d);
    }
  }

  lemma {:induction false} HasLeadingSymbol(n: nat)
    requires n > 0
    ensures |Symbols(n)| > 0 && Symbols(n)[0] != ALPHABET[0]
  {
    if n >= 58 { HasLeadingSymbol(n / 58); } else {
      Ordered(0, n);
      assert Symbols(n / 58) == "";
    }
  }

  lemma {:induction false} OnesAhead(ones: nat, s: string)
    requires s == "" || s[0] != ALPHABET[0]
    ensures LeadingOnes(Repeat(ALPHABET[0], ones) + s) == ones
  {
    var t := Repeat(ALPHABET[0], ones) + s;
    if ones > 0 {
      assert t[1..] == Repeat(ALPHABET[0], ones - 1) + s;
      OnesAhead(ones - 1, s);
    }
  }

  lemma {:induction false} BytesOfNumber(bytes: seq<byte>)
    ensures Zeros(LeadingZeros(bytes)) + ByteString(Number(bytes)) == bytes
  {
    if bytes != [] {
      var init, last := bytes[..|bytes| - 1], bytes[|bytes| - 1];
      BytesOfNumber(init);
      if Number(bytes) == 0 {
        AllZeros(bytes);
        ZerosSoFar(bytes, |bytes|);
      } else {
        assert Number(bytes) / 256 == Number(init) && Number(bytes) % 256 == last as int;
        ZerosOfInit(bytes);
      }
    }
  }

  lemma {:induction false} AllZeros(bytes: seq<byte>)
    requires Number(bytes) == 0
    ensures forall k :: 0 <= k < |bytes| ==> bytes[k] == 0
  {
    if bytes != [] { AllZeros(bytes[..|bytes| - 1]); }
  }

  /** A byte string that is not all zeros has as many leading zeros without its last byte. */
  lemma ZerosOfInit(bytes: seq<byte>)
    requires bytes != [] && Number(bytes) > 0
    ensures LeadingZeros(bytes) == LeadingZeros(bytes[..|bytes| - 1])
  {
    var init, z := bytes[..|bytes| - 1], LeadingZeros(bytes[..|bytes| - 1]);
    ZerosAre(init);
    ZerosSoFar(bytes, z);
    if z == |init| {
      NumberOfZeros(init);
      assert bytes[z..] == [bytes[z]];
    } else {
      assert bytes[z..][0] == init[z];
    }
  }

  lemma {:induction false} NumberOfZeros(bytes: seq<byte>)
    requires forall k :: 0 <= k < |bytes| ==> bytes[k] == 0
    ensures Number(bytes) == 0
  {
    if bytes != [] { NumberOfZeros(bytes[..|bytes| - 1]); }
  }

  lemma {:induction false} ZerosAre(bytes: seq<byte>)
    ensures LeadingZeros(bytes) <= |bytes|
    ensures forall k :: 0 <= k < LeadingZeros(bytes) ==> bytes[k] == 0
    ensures LeadingZeros(bytes) < |bytes| ==> bytes[LeadingZeros(bytes)] != 0
  {
    if bytes != [] && bytes[0] == 0 {
      ZerosAre(bytes[1..]);
      forall k | 0 <= k < LeadingZeros(bytes) ensures bytes[k] == 0 {
        if k > 0 { assert bytes[k] == bytes[1..][k - 1]; }
      }
    }
  }

  /** Decoding what was encoded gives the bytes back, leading zeros included. */
  lemma EncodingDecodes(bytes: seq<byte>)
    ensures Decoded(Encoded(bytes)) == Some(bytes)
  {
    var ones, n := LeadingZeros(bytes), Number(bytes);
    ValueOfSymbols(ones, n);
    if n > 0 { HasLeadingSymbol(n); }
    OnesAhead(ones, Symbols(n));
    BytesOfNumber(bytes);
  }

  // ---------------------------------------------------------------------- addresses

  /** The bot's pattern for an address: T and 33 characters of the alphabet's classes. */
  predicate MatchesAddress(s: string) { |s| == 34 && s[0] == 'T' && forall k :: 1 <= k < 34 ==> InClass(s[k]) }

  lemma {:induction false} SymbolsInClass(n: nat)
    ensures forall k :: 0 <= k < |Symbols(n)| ==> InClass(Symbols(n)[k])
  {
    if n > 0 {
      SymbolsInClass(n / 58);
      SymbolCode(n % 58);
    }
  }

  lemma {:induction false} NumberBounds(first: byte, rest: seq<byte>)
    ensures first as int * Power(256, |rest|) <= Number([first] + rest) < (first as int + 1) * Power(256, |rest|)
    decreases |rest|
  {
    if rest == [] {
      assert Number([first]) == 256 * Number([first][..0]) + first as int;
      assert [first] + rest == [first];
    } else {
      var init, p := rest[..|rest| - 1], Power(256, |rest| - 1);
      NumberBounds(first, init);
      assert ([first] + rest)[..|rest|] == [first] + init;
      assert first as int * Power(256, |rest|) == 256 * (first as int * p);
      assert (first as int + 1) * Power(256, |rest|) == 256 * ((first as int + 1) * p);
    }
  }

  /** 58^33 and 256^24, by squaring and multiplying. */
  lemma Powers()
    ensures Power(58, 33) == 24986644000165537792 * 24986644000165537792 * 24986644000165537792
    ensures Power(256, 24) == 79228162514264337593543950336 * 79228162514264337593543950336
  {
    var p, q := Power(58, 11), Power(256, 12);
    assert p == 24986644000165537792 && q == 79228162514264337593543950336;
    PowerOfSum(58, 11, 11);
    PowerOfSum(58, 22, 11);
    PowerOfSum(256, 12, 12);
  }

  /** 65 * 256^24 up to 66 * 256^24 lies within the numbers of 34 symbols that
      start with the 26th one, T. */
  lemma AddressRange()
    ensures 26 * Power(58, 33) <= 65 * Power(256, 24) && 66 * Power(256, 24) <= 27 * Power(58, 33)
    ensures ALPHABET[26] == 'T'
  {
    Powers();
    SymbolCode(26);
  }

  lemma {:induction false} PowerOfSum(base: nat, m: nat, n: nat)
    ensures Power(base, m + n) == Power(base, m) * Power(base, n)
  {
    if m > 0 {
      PowerOfSum(base, m - 1, n);
      assert base * (Power(base, m - 1) * Power(base, n)) == Power(base, m) * Power(base, n);
    }
  }

  /** Any 20-byte hash with any four checksum bytes gives an address of exactly 34
      characters that the bot's own pattern accepts, and the address determines
      both. */
  lemma AddressMatches(hash: seq<byte>, checksum: seq<byte>)
    requires |hash| == 20 && |checksum| == 4
    ensures MatchesAddress(Encoded([0x41] + hash + checksum))
    ensures Decoded(Encoded([0x41] + hash + checksum)) == Some([0x41] + hash + checksum)
  {
    var bytes := [0x41] + hash + checksum;
    assert bytes == [0x41] + (hash + checksum);
    NumberBounds(0x41, hash + checksum);
    AddressRange();
    LeadingSymbol(Number(bytes), 33, 26);
    SymbolsInClass(Number(bytes));
    assert Encoded(bytes) == Symbols(Number(bytes));
    EncodingDecodes(bytes);
  }
}

/**
 FiSH's own base64: each block of 8 bytes becomes 12 digits, the right word
 first, each word from its low end.
 */
module FishBase64 {
  import opened Wrappers
  import opened Base64
  import opened CBytes

  const TWO32 := 0x1_0000_0000

  type word = x: int | 0 <= x < 0x1_0000_0000

  /** The alphabet is ". /" 0-9 a-z A-Z without the blank, in that order. */
  predicate IsFishDigit(c: char) {
    '.' <= c <= '9' || 'a' <= c <= 'z' || 'A' <= c <= 'Z'
  }

  function FishDigit(d: sextet): (c: char)
    ensures IsFishDigit(c)
  {
    if d < 12 then '.' + d as char else if d < 38 then 'a' + (d - 12) as char else 'A' + (d - 38) as char
  }

  /** The table fish_unbase64; 64 marks a character outside the alphabet. */
  function FishRank(c: char): (r: nat)
    ensures r <= 64 && (IsFishDigit(c) <==> r < 64)
  {
    if '.' <= c <= '9' then (c - '.') as int
    else if 'a' <= c <= 'z' then (c - 'a') as int + 12
    else if 'A' <= c <= 'Z' then (c - 'A') as int + 38
    else 64
  }

  lemma FishRankOfDigit(d: sextet)
    ensures FishRank(FishDigit(d)) == d
  {
  }

  lemma FishDigitOfRank(c: char)
    requires IsFishDigit(c)
    ensures FishDigit(FishRank(c)) == c
  {
  }

  lemma FishRankIs(c: char)
    requires IsFishDigit(c)
    ensures FishRank(c) < 64
  {
  }

  // ----- words -----

  function Join(high: nat, low: byte): nat {
    high * 256 + low
  }

  lemma SplitUndoesJoin(high: nat, low: byte)
    ensures Join(high, low) / 256 == high && Join(high, low) % 256 == low
  {
  }

  /** Four bytes, highest first. */
  function Word(b: seq<byte>): word
    requires |b| == 4
  {
    Join(Join(Join(b[0], b[1]), b[2]), b[3])
  }

  function Bytes(w: word): (b: seq<byte>)
    ensures |b| == 4
  {
    [w / 256 / 256 / 256, w / 256 / 256 % 256, w / 256 % 256, w % 256]
  }

  lemma BytesOfWord(b: seq<byte>)
    requires |b| == 4
    ensures Bytes(Word(b)) == b
  {
    hide Join;
    SplitUndoesJoin(b[0], b[1]);
    SplitUndoesJoin(Join(b[0], b[1]), b[2]);
    SplitUndoesJoin(Join(Join(b[0], b[1]), b[2]), b[3]);
  }

  /** The low `k` digits of a number, lowest first. */
  function Digits(n: nat, k: nat): (s: string)
    ensures |s| == k && forall c <- s :: IsFishDigit(c)
    decreases k
  {
    if k == 0 then "" else [FishDigit(n % 64)] + Digits(n / 64, k - 1)
  }

  function Value(s: string): nat {
    if s == "" then 0 else FishRank(s[0]) + 64 * Value(s[1..])
  }

  function Pow64(k: nat): (p: nat)
    ensures p > 0
  {
    if k == 0 then 1 else 64 * Pow64(k - 1)
  }

  lemma {:induction false} ValueOfDigits(n: nat, k: nat)
    requires n < Pow64(k)
    ensures Value(Digits(n, k)) == n
    decreases k
  {
    if k > 0 {
      ValueOfDigits(n / 64, k - 1);
      FishRankOfDigit(n % 64);
      assert Digits(n, k)[1..] == Digits(n / 64, k - 1);
    }
  }

  lemma {:induction false} DigitsOfValue(s: string)
    requires forall c <- s :: IsFishDigit(c)
    ensures Value(s) < Pow64(|s|) && Digits(Value(s), |s|) == s
  {
    hide FishDigit, FishRank, Digits;
    if s == "" {
      DigitsEnd("", Value(s));
      assert "" + Digits(Value(s), 0) == Digits(Value(s), 0);
    } else {
      DigitsOfValue(s[1..]);
      FishDigitOfRank(s[0]);
      FishRankIs(s[0]);
      assert Value(s) % 64 == FishRank(s[0]) && Value(s) / 64 == Value(s[1..]);
      DigitsStep("", Value(s), |s|);
      assert "" + Digits(Value(s), |s|) == Digits(Value(s), |s|);
      assert "" + [s[0]] + s[1..] == s;
    }
  }

  lemma SixDigits()
    ensures Pow64(6) == 16 * TWO32
  {
    assert Pow64(3) == 262144;
    assert Pow64(6) == 64 * (64 * (64 * Pow64(3)));
  }

  // ----- blocks -----

  function EncodeBlock(b: seq<byte>): (s: string)
    requires |b| == 8
    ensures |s| == 12
  {
    Digits(Word(b[4..]), 6) + Digits(Word(b[..4]), 6)
  }

  /** Digits above the word's 32 bits fall off the shift. */
  function DecodeBlock(s: string): (b: seq<byte>)
    requires |s| == 12
    ensures |b| == 8
  {
    Bytes(Value(s[6..]) % TWO32) + Bytes(Value(s[..6]) % TWO32)
  }

  function Encode(data: seq<byte>): string
    requires |data| % 8 == 0
  {
    if data == [] then "" else EncodeBlock(data[..8]) + Encode(data[8..])
  }

  function Blocks(s: string): seq<byte>
    requires |s| % 12 == 0
  {
    if s == "" then [] else DecodeBlock(s[..12]) + Blocks(s[12..])
  }

  predicate Decodable(s: string) {
    s != "" && |s| % 12 == 0 && forall c <- s :: IsFishDigit(c)
  }

  function Decode(s: string): Option<seq<byte>> {
    if Decodable(s) then Some(Blocks(s)) else None
  }

  // ----- the loops over the buffers -----

  /** Six digits of a word into the buffer. */
  method WriteDigits(encoded: array<char>, start: nat, w: word) returns (end: nat)
    requires start + 6 <= encoded.Length
    modifies encoded
    ensures end == start + 6
    ensures encoded[..end] == old(encoded[..start]) + Digits(w, 6)
  {
    hide Digits, FishDigit;
    end := start;
    var rest: nat := w;
    var i := 0;
    while i < 6
      invariant 0 <= i <= 6 && end == start + i
      invariant old(encoded[..start]) + Digits(w, 6) == encoded[..end] + Digits(rest, 6 - i)
    {
      ghost var before := encoded[..end];
      DigitsStep(before, rest, 6 - i);
      encoded[end] := FishDigit(rest % 64);
      assert encoded[..end + 1] == before + [FishDigit(rest % 64)];
      end := end + 1;
      rest := rest / 64;
      i := i + 1;
    }
    DigitsEnd(encoded[..end], rest);
  }

  lemma DigitsStep(before: string, n: nat, k: nat)
    requires k > 0
    ensures before + Digits(n, k) == before + [FishDigit(n % 64)] + Digits(n / 64, k - 1)
  {
    hide FishDigit;
  }

  lemma DigitsEnd(before: string, n: nat)
    ensures before + Digits(n, 0) == before
  {
  }

  /** One block into the buffer, the right word first. */
  method WriteBlock(encoded: array<char>, start: nat, block: seq<byte>) returns (end: nat)
    requires start + 12 <= encoded.Length && |block| == 8
    modifies encoded
    ensures end == start + 12
    ensures encoded[..end] == old(encoded[..start]) + EncodeBlock(block)
  {
    hide Word, Digits;
    var left, right := Word(block[..4]), Word(block[4..]);
    end := WriteDigits(encoded, start, right);
    end := WriteDigits(encoded, end, left);
  }

  lemma EncodeNext(done: string, rest: seq<byte>)
    requires |rest| % 8 == 0 && rest != []
    ensures done + Encode(rest) == done + EncodeBlock(rest[..8]) + Encode(rest[8..])
  {
    hide EncodeBlock;
  }

  lemma EncodeAt(done: string, message: seq<byte>, j: nat)
    requires j < |message| && |message[j..]| % 8 == 0
    ensures j + 8 <= |message| && |message[j + 8..]| % 8 == 0
    ensures done + Encode(message[j..]) == done + EncodeBlock(message[j..j + 8]) + Encode(message[j + 8..])
  {
    hide Encode, EncodeBlock;
    EncodeNext(done, message[j..]);
    assert message[j..][..8] == message[j..j + 8] && message[j..][8..] == message[j + 8..];
  }

  lemma LastBlock(n: nat, size: nat)
    requires size == 8 || size == 12
    requires n > 0 && n % size == 0
    ensures n == size * (n / size) && (n - 1) / size == n / size - 1
  {
  }

  /** fish_base64_encode.  It reads whole blocks, so callers pass whole blocks;
      the buffer allocated beforehand is exactly filled. */
  method FishBase64Encode(message: seq<byte>) returns (encoded: Option<string>)
    requires |message| % 8 == 0
    ensures encoded == if message == [] then None else Some(Encode(message))
  {
    hide Encode, EncodeBlock;
    if |message| == 0 {
      return None;
    }
    ghost var blocks, k := |message| / 8, 0;
    LastBlock(|message|, 8);
    var buffer := new char[(|message| - 1) / 8 * 12 + 12];
    var end, j := 0, 0;
    assert message[0..] == message && buffer[..0] + Encode(message) == Encode(message);
    while j < |message|
      invariant 0 <= k <= blocks && j == 8 * k && end == 12 * k
      invariant |message[j..]| % 8 == 0
      invariant Encode(message) == buffer[..end] + Encode(message[j..])
      decreases |message| - j
    {
      EncodeAt(buffer[..end], message, j);
      end := WriteBlock(buffer, end, message[j..j + 8]);
      j := j + 8;
      k := k + 1;
    }
    EncodeNothing();
    assert message[j..] == [] && buffer[..] == buffer[..end] == buffer[..end] + "";
    return Some(buffer[..]);
  }

  lemma EncodeNothing()
    ensures Encode([]) == "" && Blocks("") == []
  {
  }

  lemma Distribute(shift: nat, r: nat, rest: nat)
    ensures shift * (r + 64 * rest) == r * shift + (shift * 64) * rest
  {
  }

  lemma ValueStep(s: string)
    requires s != ""
    ensures Value(s) == FishRank(s[0]) + 64 * Value(s[1..])
  {
  }

  lemma ValueOfNothing()
    ensures Value("") == 0
  {
  }

  /** The six-digit loop of fish_base64_decode. */
  method ReadDigits(s: string) returns (w: word)
    requires |s| == 6
    ensures w == Value(s) % TWO32
  {
    hide FishRank, Value;
    var sum: nat, shift: nat, i := 0, 1, 0;
    assert s[0..] == s;
    while i < 6
      invariant 0 <= i <= 6
      invariant Value(s) == sum + shift * Value(s[i..])
    {
      assert s[i..][0] == s[i] && s[i..][1..] == s[i + 1..];
      ValueStep(s[i..]);
      Distribute(shift, FishRank(s[i]), Value(s[i + 1..]));
      sum := sum + FishRank(s[i]) * shift;
      shift := shift * 64;
      i := i + 1;
    }
    assert s[0..] == s && s[6..] == "";
    ValueOfNothing();
    w := sum % TWO32;
  }

  /** One group of twelve digits into the buffer. */
  method WriteBytes(bytes: array<byte>, start: nat, s: string) returns (end: nat)
    requires start + 8 <= bytes.Length && |s| == 12
    modifies bytes
    ensures end == start + 8
    ensures bytes[..end] == old(bytes[..start]) + DecodeBlock(s)
  {
    hide Value, Bytes;
    var right := ReadDigits(s[..6]);
    var left := ReadDigits(s[6..]);
    var eight := Bytes(left) + Bytes(right);
    end := start;
    while end < start + 8
      invariant start <= end <= start + 8
      invariant bytes[..end] == old(bytes[..start]) + eight[..end - start]
    {
      ghost var before := bytes[..end];
      bytes[end] := eight[end - start];
      assert bytes[..end + 1] == before + [eight[end - start]];
      assert eight[..end - start + 1] == eight[..end - start] + [eight[end - start]];
      end := end + 1;
    }
    assert eight[..8] == eight;
  }

  lemma BlocksNext(done: seq<byte>, rest: string)
    requires |rest| % 12 == 0 && rest != ""
    ensures done + Blocks(rest) == done + DecodeBlock(rest[..12]) + Blocks(rest[12..])
  {
    hide DecodeBlock;
  }

  lemma BlocksAt(done: seq<byte>, message: string, j: nat)
    requires j < |message| && |message[j..]| % 12 == 0
    ensures j + 12 <= |message| && |message[j + 12..]| % 12 == 0
    ensures done + Blocks(message[j..]) == done + DecodeBlock(message[j..j + 12]) + Blocks(message[j + 12..])
  {
    hide Blocks, DecodeBlock;
    BlocksNext(done, message[j..]);
    assert message[j..][..12] == message[j..j + 12] && message[j..][12..] == message[j + 12..];
  }

  /** fish_base64_decode. */
  method FishBase64Decode(message: string) returns (bytes: Option<seq<byte>>)
    ensures bytes == Decode(message)
  {
    hide Blocks, DecodeBlock, FishRank, IsFishDigit;
    if |message| == 0 || |message| % 12 != 0 || exists c <- message :: !IsFishDigit(c) {
      return None;
    }
    ghost var blocks, k := |message| / 12, 0;
    LastBlock(|message|, 12);
    var buffer := new byte[(|message| - 1) / 12 * 8 + 8];
    var byt, msg := 0, 0;
    assert message[0..] == message && buffer[..0] + Blocks(message) == Blocks(message);
    while msg < |message|
      invariant 0 <= k <= blocks && msg == 12 * k && byt == 8 * k
      invariant |message[msg..]| % 12 == 0
      invariant Blocks(message) == buffer[..byt] + Blocks(message[msg..])
      decreases |message| - msg
    {
      BlocksAt(buffer[..byt], message, msg);
      byt := WriteBytes(buffer, byt, message[msg..msg + 12]);
      msg := msg + 12;
      k := k + 1;
    }
    EncodeNothing();
    assert message[msg..] == "" && buffer[..] == buffer[..byt] == buffer[..byt] + [];
    return Some(buffer[..]);
  }

  // ----- round trips -----

  lemma DecodeBlockUndoes(b: seq<byte>)
    requires |b| == 8
    ensures DecodeBlock(EncodeBlock(b)) == b
  {
    hide Digits, Value, Word, Bytes;
    var left, right := Word(b[..4]), Word(b[4..]);
    SixDigits();
    ValueOfDigits(left, 6);
    ValueOfDigits(right, 6);
    assert EncodeBlock(b)[..6] == Digits(right, 6) && EncodeBlock(b)[6..] == Digits(left, 6);
    BytesOfWord(b[..4]);
    BytesOfWord(b[4..]);
  }

  lemma {:induction false} EncodeShape(data: seq<byte>)
    requires |data| % 8 == 0
    ensures |Encode(data)| == |data| / 8 * 12 && forall c <- Encode(data) :: IsFishDigit(c)
  {
    if data != [] {
      EncodeShape(data[8..]);
    }
  }

  lemma {:induction false} BlocksUndoEncode(data: seq<byte>)
    requires |data| % 8 == 0
    ensures |Encode(data)| % 12 == 0 && Blocks(Encode(data)) == data
  {
    hide EncodeBlock, DecodeBlock;
    EncodeShape(data);
    if data != [] {
      BlocksUndoEncode(data[8..]);
      DecodeBlockUndoes(data[..8]);
      assert Encode(data)[..12] == EncodeBlock(data[..8]) && Encode(data)[12..] == Encode(data[8..]);
    }
  }

  /** The word shifted to the right by `j` digits. */
  function Shifted(w: nat, j: nat): nat {
    if j == 0 then w else Shifted(w / 64, j - 1)
  }

  lemma {:induction false} DigitsAt(n: nat, k: nat, j: nat)
    requires j < k
    ensures FishRank(Digits(n, k)[j]) == Shifted(n, j) % 64
  {
    hide FishDigit, FishRank;
    if j > 0 {
      DigitsAt(n / 64, k - 1, j - 1);
    } else {
      FishRankOfDigit(n % 64);
    }
  }

  /** The word that digit `j` of a block is taken from: the right one first. */
  function WordFor(message: seq<byte>, i: nat, j: nat): nat
    requires 8 * i + 8 <= |message| && j < 12
  {
    var at := 8 * i + if j < 6 then 4 else 0;
    ((message[at] as int * 256 + message[at + 1]) * 256 + message[at + 2]) * 256 + message[at + 3]
  }

  lemma BlockDigitIs(b: seq<byte>, j: nat)
    requires |b| == 8 && j < 12
    ensures FishRank(EncodeBlock(b)[j]) == Shifted(WordFor(b, 0, j), if j < 6 then j else j - 6) % 64
  {
    hide FishRank, Digits, Shifted;
    var w := if j < 6 then Word(b[4..]) else Word(b[..4]);
    DigitsAt(w, 6, if j < 6 then j else j - 6);
  }

  lemma EncodeBlockAt(message: seq<byte>, i: nat)
    requires |message| % 8 == 0 && 8 * i + 8 <= |message|
    ensures 12 * i + 12 <= |Encode(message)|
    ensures Encode(message)[12 * i..12 * i + 12] == EncodeBlock(message[8 * i..8 * i + 8])
    decreases i
  {
    hide EncodeBlock;
    if i > 0 {
      EncodeBlockAt(message[8..], i - 1);
      assert message[8..][8 * (i - 1)..8 * (i - 1) + 8] == message[8 * i..8 * i + 8];
    }
  }

  /** Digit `j` of block `i` of the text: of the block's two words the right one
      comes first; each is taken with its highest byte first and written with
      its lowest digit first. */
  lemma DigitIs(message: seq<byte>, i: nat, j: nat)
    requires |message| % 8 == 0 && 8 * i + 8 <= |message| && j < 12
    ensures 12 * i + j < |Encode(message)|
    ensures FishRank(Encode(message)[12 * i + j]) == Shifted(WordFor(message, i, j), if j < 6 then j else j - 6) % 64
  {
    hide FishRank, Shifted, Encode, EncodeBlock;
    EncodeBlockAt(message, i);
    BlockDigitIs(message[8 * i..8 * i + 8], j);
    assert Encode(message)[12 * i + j] == Encode(message)[12 * i..12 * i + 12][j];
  }

  /** Decoding undoes encoding on any whole number of blocks, at 12 digits a block. */
  lemma DecodeUndoesEncode(data: seq<byte>)
    requires |data| % 8 == 0 && data != []
    ensures Decode(Encode(data)) == Some(data)
    ensures |Encode(data)| == |data| / 8 * 12
  {
    EncodeShape(data);
    BlocksUndoEncode(data);
  }

  /** A block of digits is what some bytes encode to when no digit spills over
      the word: the sixth digit of each word holds only two bits. */
  predicate Canonical(s: string)
    requires |s| == 12
  {
    FishRank(s[5]) < 4 && FishRank(s[11]) < 4
  }

  lemma ValueFits(s: string)
    requires |s| == 6 && forall c <- s :: IsFishDigit(c)
    ensures Value(s) < TWO32 <==> FishRank(s[5]) < 4
  {
    var d := FishRank(s[5]);
    assert Value(s[5..]) == d by {
      assert s[5..][1..] == "";
    }
    assert Value(s) == FishRank(s[0]) + 64 * (FishRank(s[1]) + 64 * (FishRank(s[2]) + 64 * (FishRank(s[3])
                       + 64 * (FishRank(s[4]) + 64 * d)))) by {
      Unrolled(s);
    }
  }

  lemma Unrolled(s: string)
    requires |s| == 6
    ensures Value(s) == FishRank(s[0]) + 64 * (FishRank(s[1]) + 64 * (FishRank(s[2]) + 64 * (FishRank(s[3])
                        + 64 * (FishRank(s[4]) + 64 * Value(s[5..])))))
  {
    assert s[1..][1..] == s[2..] && s[2..][1..] == s[3..] && s[3..][1..] == s[4..] && s[4..][1..] == s[5..];
    assert Value(s[4..]) == FishRank(s[4]) + 64 * Value(s[5..]);
    assert Value(s[3..]) == FishRank(s[3]) + 64 * Value(s[4..]);
    assert Value(s[2..]) == FishRank(s[2]) + 64 * Value(s[3..]);
    assert Value(s[1..]) == FishRank(s[1]) + 64 * Value(s[2..]);
  }

  lemma WordOfBytes(w: word)
    ensures Word(Bytes(w)) == w
  {
  }

  /** Re-encoding a decoded group gives the group back exactly when no digit
      spilled over: other texts decode too, but are not the text of any bytes. */
  lemma EncodeUndoesDecodeIff(s: string)
    requires |s| == 12 && forall c <- s :: IsFishDigit(c)
    ensures EncodeBlock(DecodeBlock(s)) == s <==> Canonical(s)
  {
    hide Digits, Value, Word, Bytes, FishRank;
    var left, right := Value(s[6..]) % TWO32, Value(s[..6]) % TWO32;
    var b := DecodeBlock(s);
    assert b[..4] == Bytes(left) && b[4..] == Bytes(right);
    WordOfBytes(left);
    WordOfBytes(right);
    DigitsOfValue(s[..6]);
    DigitsOfValue(s[6..]);
    ValueFits(s[..6]);
    ValueFits(s[6..]);
    assert s == s[..6] + s[6..];
    if EncodeBlock(b) == s {
      assert Digits(right, 6) == s[..6] && Digits(left, 6) == s[6..];
      SixDigits();
      ValueOfDigits(right, 6);
      ValueOfDigits(left, 6);
    }
  }
}

/**
 Cutting a text into encrypted lines: the length arithmetic, the UTF-8 aware
 splitter and the loop over the chunks, under the 510 bytes that section 2.3
 of RFC 2812 leaves a line.
 */
module FishLines {
  import opened Wrappers
  import opened Base64
  import opened CBytes
  import opened FishCipher
  import F = FishBase64

  const MAX_COMMAND_LENGTH := 510

  // ----- lengths -----

  /** base64_len. */
  function Base64Len(n: nat): nat {
    var unpadded := 4 * n / 3;
    if unpadded % 4 != 0 then unpadded + (4 - unpadded % 4) else unpadded
  }

  /** base64_fish_len. */
  function Base64FishLen(n: nat): nat {
    var unpadded := 12 * n / 8;
    if unpadded % 12 != 0 then unpadded + (12 - unpadded % 12) else unpadded
  }

  /** cbc_len: the IV, the data and its zero padding. */
  function CbcLen(n: nat): nat {
    Base64Len(8 + (if n % 8 != 0 then n + 8 - n % 8 else n))
  }

  /** encoded_len. */
  function EncodedLen(n: nat, mode: Mode): nat {
    match mode
    case Cbc => CbcLen(n)
    case Ecb => Base64FishLen(n)
  }

  /** The arithmetic is the length of the standard base64 text. */
  lemma Base64LenIs(data: seq<byte>)
    ensures Base64Len(|data|) == |Encode(data)|
  {
    EncodeShape(data);
    ThirdsUp(|data|);
  }

  lemma ThirdsUp(n: nat)
    ensures Base64Len(n) == (n + 2) / 3 * 4
  {
    var k, r := n / 3, n % 3;
    assert n == 3 * k + r;
    if r == 0 {
      assert 4 * n / 3 == 4 * k;
    } else if r == 1 {
      assert 4 * n / 3 == 4 * k + 1;
    } else {
      assert 4 * n / 3 == 4 * k + 2;
    }
  }

  lemma EighthsUp(n: nat)
    ensures Base64FishLen(n) == PaddedLength(n) / 8 * 12
  {
    var k, r := n / 8, n % 8;
    assert n == 8 * k + r;
    var rest := 12 * r / 8;
    assert 12 * n / 8 == 12 * k + rest by {
      DivideBy8(k, r);
    }
    assert rest < 12 && (rest == 0 <==> r == 0);
    RoundTwelve(k, rest);
    assert PaddedLength(n) / 8 == if r == 0 then k else k + 1;
  }

  lemma DivideBy8(k: nat, r: nat)
    requires r < 8
    ensures 12 * (8 * k + r) / 8 == 12 * k + 12 * r / 8
  {
  }

  lemma RoundTwelve(k: nat, rest: nat)
    requires rest < 12
    ensures (12 * k + rest) % 12 == rest
  {
  }

  /** The predicted length is the length of what an encryption gives. */
  lemma EncodedLenIs(keyed: seq<byte> -> Permutation, key: seq<byte>, message: seq<byte>, mode: Mode, iv: Block)
    requires key != [] && message != []
    ensures var text := Encrypt(keyed, key, message, mode, iv);
      text.Some? && |text.value| == EncodedLen(|message|, mode)
  {
    hide Cipher, Encode, F.Encode, PaddedLength;
    CipherWhole(keyed(key), message, mode, iv);
    var c := Cipher(keyed(key), message, true, mode, iv).value;
    if mode == Cbc {
      Base64LenIs(c);
      PaddedIs(|message|);
    } else {
      F.EncodeShape(c);
      EighthsUp(|message|);
    }
  }

  lemma PaddedIs(n: nat)
    ensures PaddedLength(n) == if n % 8 != 0 then n + 8 - n % 8 else n
  {
  }

  lemma EncodedLenMonotone(m: nat, n: nat, mode: Mode)
    requires m <= n
    ensures EncodedLen(m, mode) <= EncodedLen(n, mode)
  {
    hide Base64Len, Base64FishLen;
    if mode == Cbc {
      ThirdsUp(8 + PaddedLength(m));
      ThirdsUp(8 + PaddedLength(n));
    } else {
      EighthsUp(m);
      EighthsUp(n);
    }
    PaddedMonotone(m, n);
  }

  lemma PaddedMonotone(m: nat, n: nat)
    requires m <= n
    ensures PaddedLength(m) <= PaddedLength(n) && PaddedLength(m) / 8 <= PaddedLength(n) / 8
  {
  }

  lemma EncodedLenGrows(n: nat, mode: Mode)
    ensures n <= EncodedLen(n, mode)
  {
    hide Base64Len, Base64FishLen;
    if mode == Cbc {
      ThirdsUp(8 + PaddedLength(n));
    } else {
      EighthsUp(n);
    }
  }

  /** Room for one cipher block in a line: 12 digits, and 12 more for the IV. */
  predicate HasRoom(maxLen: int, mode: Mode) {
    maxLen >= if mode == Cbc then 24 else 12
  }

  /** max_text_command_len: the greatest text length whose encoding fits. */
  method MaxTextCommandLen(maxLen: nat, mode: Mode) returns (len: nat)
    requires HasRoom(maxLen, mode)
    ensures EncodedLen(len, mode) <= maxLen
    ensures forall n: nat | n > len :: EncodedLen(n, mode) > maxLen
    ensures len >= 8
  {
    hide EncodedLen;
    len := maxLen;
    assert EncodedLen(8, mode) <= maxLen by {
      OneBlock(mode);
    }
    forall n: nat | n > maxLen ensures EncodedLen(n, mode) > maxLen {
      EncodedLenGrows(n, mode);
    }
    while EncodedLen(len, mode) > maxLen
      invariant len >= 8
      invariant forall n: nat | n > len :: EncodedLen(n, mode) > maxLen
      decreases len
    {
      len := len - 1;
    }
  }

  lemma OneBlock(mode: Mode)
    ensures EncodedLen(8, mode) == if mode == Cbc then 24 else 12
  {
  }

  // ----- UTF-8 -----

  /** g_utf8_next_char: how far the lead byte says the next character is. */
  function Skip(lead: byte): nat {
    if lead < 0xC0 then 1
    else if lead < 0xE0 then 2
    else if lead < 0xF0 then 3
    else if lead < 0xF8 then 4
    else if lead < 0xFC then 5
    else if lead < 0xFE then 6 else 1
  }

  predicate Tail(b: byte) {
    0x80 <= b <= 0xBF
  }

  /** The text starts with a character of section 4 of RFC 3629. */
  predicate StartsWithChar(s: seq<byte>) {
    |s| > 0 &&
    var n := Skip(s[0]);
    n <= |s| &&
    (s[0] <= 0x7F ||
     (0xC2 <= s[0] <= 0xDF && Tail(s[1])) ||
     (0xE0 <= s[0] <= 0xEF && Tail(s[1]) && Tail(s[2]) &&
      (s[0] == 0xE0 ==> s[1] >= 0xA0) && (s[0] == 0xED ==> s[1] <= 0x9F)) ||
     (0xF0 <= s[0] <= 0xF4 && Tail(s[1]) && Tail(s[2]) && Tail(s[3]) &&
      (s[0] == 0xF0 ==> s[1] >= 0x90) && (s[0] == 0xF4 ==> s[1] <= 0x8F)))
  }

  /** g_utf8_validate. */
  predicate ValidUtf8(s: seq<byte>)
    decreases |s|
  {
    s == [] || (StartsWithChar(s) && Skip(s[0]) > 0 && ValidUtf8(s[Skip(s[0])..]))
  }

  /** The furthest character boundary at most `max` bytes in. */
  function Boundary(s: seq<byte>, max: nat): (n: nat)
    requires ValidUtf8(s)
    ensures n <= max && n <= |s|
    decreases |s|
  {
    if s == [] || Skip(s[0]) > max then 0
    else Skip(s[0]) + Boundary(s[Skip(s[0])..], max - Skip(s[0]))
  }

  function ChunkLen(data: seq<byte>, max: nat): (n: nat)
    ensures n <= |data| && n <= max
  {
    if |data| <= max then |data|
    else if !ValidUtf8(data) then max
    else Boundary(data, max)
  }

  /** One character further: it fits and is counted, or it is one too many. */
  lemma BoundaryStep(s: seq<byte>, max: nat)
    requires ValidUtf8(s) && s != []
    ensures 0 < Skip(s[0]) <= |s| && ValidUtf8(s[Skip(s[0])..])
    ensures Boundary(s, max) == if Skip(s[0]) > max then 0
                                else Skip(s[0]) + Boundary(s[Skip(s[0])..], max - Skip(s[0]))
  {
    hide StartsWithChar;
    ValidStep(s);
  }

  /** The character loop of foreach_utf8_data_chunks. */
  method FindBoundary(data: seq<byte>, maxChunkLen: nat) returns (last: nat)
    requires ValidUtf8(data) && |data| > maxChunkLen
    ensures last == Boundary(data, maxChunkLen)
  {
    hide ValidUtf8, Boundary, Skip;
    var at := 0;
    last := 0;
    while at < |data| && at <= maxChunkLen
      invariant 0 <= last <= at <= |data| && last <= maxChunkLen
      invariant ValidUtf8(data[at..])
      invariant at <= maxChunkLen ==> Boundary(data, maxChunkLen) == at + Boundary(data[at..], maxChunkLen - at)
      invariant at > maxChunkLen ==> last == Boundary(data, maxChunkLen)
      decreases |data| - at
    {
      last := at;
      BoundaryStep(data[at..], maxChunkLen - at);
      assert data[at..][Skip(data[at])..] == data[at + Skip(data[at])..];
      at := at + Skip(data[at]);
    }
  }

  /** foreach_utf8_data_chunks: the length of the next chunk, none at the end. */
  method NextChunk(data: seq<byte>, maxChunkLen: nat) returns (chunkLen: Option<nat>)
    ensures chunkLen == if data == [] then None else Some(ChunkLen(data, maxChunkLen))
  {
    hide ValidUtf8, Boundary;
    if data == [] {
      return None;
    }
    if |data| <= maxChunkLen {
      return Some(|data|);
    }
    if !ValidUtf8(data) {
      return Some(maxChunkLen);
    }
    var last := FindBoundary(data, maxChunkLen);
    return Some(last);
  }

  lemma ValidStep(s: seq<byte>)
    requires ValidUtf8(s) && s != []
    ensures 0 < Skip(s[0]) <= |s| && Skip(s[0]) <= 4 && ValidUtf8(s[Skip(s[0])..])
  {
  }

  lemma CharInPrefix(s: seq<byte>, n: nat)
    requires StartsWithChar(s) && Skip(s[0]) <= n <= |s|
    ensures StartsWithChar(s[..n])
  {
  }

  lemma PrefixStep(s: seq<byte>, n: nat)
    requires ValidUtf8(s) && s != [] && Skip(s[0]) <= n <= |s| && ValidUtf8(s[Skip(s[0])..n])
    ensures ValidUtf8(s[..n])
  {
    hide StartsWithChar;
    CharInPrefix(s, n);
    ValidStep(s);
    assert s[..n][Skip(s[0])..] == s[Skip(s[0])..n];
  }

  /** A cut on a boundary leaves valid UTF-8 on both sides. */
  lemma {:induction false} BoundaryIsClean(s: seq<byte>, max: nat)
    requires ValidUtf8(s)
    ensures ValidUtf8(s[..Boundary(s, max)]) && ValidUtf8(s[Boundary(s, max)..])
    decreases |s|
  {
    hide StartsWithChar, Skip;
    if s != [] && Skip(s[0]) <= max {
      var k := Skip(s[0]);
      ValidStep(s);
      var n := Boundary(s[k..], max - k);
      BoundaryIsClean(s[k..], max - k);
      assert s[k..][..n] == s[k..k + n] && s[k..][n..] == s[k + n..];
      PrefixStep(s, k + n);
    } else {
      assert s[..0] == [] && s[0..] == s;
    }
  }

  /** The character after the cut would not have fitted. */
  lemma {:induction false} BoundaryIsFurthest(s: seq<byte>, max: nat)
    requires ValidUtf8(s)
    ensures var n := Boundary(s, max); n < |s| ==> n + Skip(s[n]) > max
    decreases |s|
  {
    hide StartsWithChar, Skip;
    if s != [] && Skip(s[0]) <= max {
      var k := Skip(s[0]);
      ValidStep(s);
      BoundaryIsFurthest(s[k..], max - k);
    }
  }

  lemma ChunkNotEmpty(data: seq<byte>, max: nat)
    requires data != [] && max >= 4
    ensures ChunkLen(data, max) > 0
  {
    if ValidUtf8(data) {
      ValidStep(data);
    }
  }

  function Chunks(data: seq<byte>, max: nat): seq<seq<byte>>
    requires max >= 4
    decreases |data|
  {
    if data == [] then []
    else
      var n := ChunkLen(data, max);
      ChunkNotEmpty(data, max);
      [data[..n]] + Chunks(data[n..], max)
  }

  function Concat(parts: seq<seq<byte>>): seq<byte> {
    if parts == [] then [] else parts[0] + Concat(parts[1..])
  }

  /** The chunks put together give the text back. */
  lemma {:induction false} ChunksPartition(data: seq<byte>, max: nat)
    requires max >= 4
    ensures Concat(Chunks(data, max)) == data
    decreases |data|
  {
    hide ChunkLen;
    if data != [] {
      ChunkNotEmpty(data, max);
      var n := ChunkLen(data, max);
      ChunksPartition(data[n..], max);
      assert Chunks(data, max)[1..] == Chunks(data[n..], max);
      assert data[..n] + data[n..] == data;
    }
  }

  /** No chunk is empty and none is too long. */
  lemma {:induction false} ChunksFit(data: seq<byte>, max: nat)
    requires max >= 4
    ensures forall c <- Chunks(data, max) :: 0 < |c| <= max
    decreases |data|
  {
    hide ChunkLen;
    if data != [] {
      ChunkNotEmpty(data, max);
      ChunksFit(data[ChunkLen(data, max)..], max);
    }
  }

  /** A text of valid UTF-8 is cut between characters only. */
  lemma {:induction false} ChunksOnBoundaries(data: seq<byte>, max: nat)
    requires max >= 4 && ValidUtf8(data)
    ensures forall c <- Chunks(data, max) :: ValidUtf8(c)
    decreases |data|
  {
    hide Boundary;
    if data != [] {
      ChunkNotEmpty(data, max);
      BoundaryIsClean(data, max);
      var n := ChunkLen(data, max);
      assert |data| <= max ==> data[..n] == data && data[n..] == [];
      ChunksOnBoundaries(data[n..], max);
    }
  }

  // ----- lines -----

  function Star(mode: Mode): string {
    if mode == Cbc then "*" else ""
  }

  /** Room for the message text in a line. */
  function Room(mode: Mode, commandLen: nat): int {
    MAX_COMMAND_LENGTH - commandLen - |Star(mode)|
  }

  /** The message text of one chunk's line. */
  function LineText(keyed: seq<byte> -> Permutation, key: seq<byte>, mode: Mode, chunk: seq<byte>, iv: Block): string
    requires key != [] && |chunk| > 0
  {
    EncodedLenIs(keyed, key, chunk, mode, iv);
    Star(mode) + Encrypt(keyed, key, chunk, mode, iv).value
  }

  predicate NoneEmpty(chunks: seq<seq<byte>>) {
    forall i | 0 <= i < |chunks| :: |chunks[i]| > 0
  }

  /** The lines of the chunks; the k-th call draws the k-th IV. */
  function Lines(keyed: seq<byte> -> Permutation, key: seq<byte>, mode: Mode, chunks: seq<seq<byte>>,
                 ivs: nat -> Block, k: nat): seq<string>
    requires key != [] && NoneEmpty(chunks)
    decreases |chunks|
  {
    if chunks == [] then []
    else [LineText(keyed, key, mode, chunks[0], ivs(k))] + Lines(keyed, key, mode, chunks[1..], ivs, k + 1)
  }

  /** One line of fish_encrypt_for_nick. */
  method EncryptLine(keyed: seq<byte> -> Permutation, key: seq<byte>, mode: Mode, chunk: seq<byte>, iv: Block)
    returns (line: string)
    requires key != [] && |chunk| > 0
    ensures line == LineText(keyed, key, mode, chunk, iv)
  {
    hide Encrypt;
    var encrypted := FishEncrypt(keyed, key, chunk, mode, iv);
    EncodedLenIs(keyed, key, chunk, mode, iv);
    if mode == Cbc {
      line := "*" + encrypted.value;
    } else {
      line := encrypted.value;
    }
  }

  /** fish_encrypt_for_nick, with the key and the mode found for the nick. */
  method EncryptForNick(keyed: seq<byte> -> Permutation, key: seq<byte>, mode: Mode, data: seq<byte>,
                        commandLen: nat, ivs: nat -> Block)
    returns (lines: seq<string>, maxChunkLen: nat)
    requires key != [] && HasRoom(Room(mode, commandLen), mode)
    ensures maxChunkLen >= 8 && EncodedLen(maxChunkLen, mode) <= Room(mode, commandLen)
    ensures forall n: nat | n > maxChunkLen :: EncodedLen(n, mode) > Room(mode, commandLen)
    ensures NoneEmpty(Chunks(data, maxChunkLen))
    ensures lines == Lines(keyed, key, mode, Chunks(data, maxChunkLen), ivs, 0)
  {
    hide LineText, ChunkLen, Chunks, Lines, NoneEmpty, EncodedLen;
    var maxLen := MAX_COMMAND_LENGTH - commandLen;
    if mode == Cbc {
      maxLen := maxLen - 1;
    }
    maxChunkLen := MaxTextCommandLen(maxLen, mode);
    ChunksNotEmpty(data, maxChunkLen);
    ghost var chunks := Chunks(data, maxChunkLen);
    lines := [];
    var rest := data;
    var next := NextChunk(rest, maxChunkLen);
    while next.Some?
      invariant next == if rest == [] then None else Some(ChunkLen(rest, maxChunkLen))
      invariant NoneEmpty(Chunks(rest, maxChunkLen))
      invariant Lines(keyed, key, mode, chunks, ivs, 0) ==
                lines + Lines(keyed, key, mode, Chunks(rest, maxChunkLen), ivs, |lines|)
      decreases |rest|
    {
      ChunkNotEmpty(rest, maxChunkLen);
      LinesNext(keyed, key, mode, rest, maxChunkLen, ivs, lines);
      var line := EncryptLine(keyed, key, mode, rest[..next.value], ivs(|lines|));
      lines := lines + [line];
      rest := rest[next.value..];
      next := NextChunk(rest, maxChunkLen);
    }
    NoLines(keyed, key, mode, maxChunkLen, ivs, |lines|);
  }

  lemma ChunksNotEmpty(data: seq<byte>, max: nat)
    requires max >= 4
    ensures NoneEmpty(Chunks(data, max))
  {
    ChunksFit(data, max);
  }

  lemma NoLines(keyed: seq<byte> -> Permutation, key: seq<byte>, mode: Mode, max: nat, ivs: nat -> Block, k: nat)
    requires key != [] && max >= 4
    ensures NoneEmpty(Chunks([], max)) && Lines(keyed, key, mode, Chunks([], max), ivs, k) == []
  {
  }

  lemma LinesNext(keyed: seq<byte> -> Permutation, key: seq<byte>, mode: Mode, rest: seq<byte>, max: nat,
                  ivs: nat -> Block, lines: seq<string>)
    requires key != [] && max >= 4 && rest != [] && NoneEmpty(Chunks(rest, max))
    ensures ChunkLen(rest, max) > 0
    ensures NoneEmpty(Chunks(rest[ChunkLen(rest, max)..], max))
    ensures
      lines + Lines(keyed, key, mode, Chunks(rest, max), ivs, |lines|) ==
      lines + [LineText(keyed, key, mode, rest[..ChunkLen(rest, max)], ivs(|lines|))] +
      Lines(keyed, key, mode, Chunks(rest[ChunkLen(rest, max)..], max), ivs, |lines| + 1)
  {
    hide LineText, ChunkLen;
    ChunkNotEmpty(rest, max);
    var n := ChunkLen(rest, max);
    var tail := Chunks(rest[n..], max);
    assert Chunks(rest, max) == [rest[..n]] + tail;
    assert ([rest[..n]] + tail)[1..] == tail;
    forall i | 0 <= i < |tail| ensures |tail[i]| > 0 {
      assert Chunks(rest, max)[i + 1] == tail[i];
    }
    assert lines + ([LineText(keyed, key, mode, rest[..n], ivs(|lines|))] + Lines(keyed, key, mode, tail, ivs, |lines| + 1))
           == lines + [LineText(keyed, key, mode, rest[..n], ivs(|lines|))] + Lines(keyed, key, mode, tail, ivs, |lines| + 1);
  }

  /** With the command in front, no line is longer than 510 bytes. */
  lemma {:induction false} LinesFit(keyed: seq<byte> -> Permutation, key: seq<byte>, mode: Mode, chunks: seq<seq<byte>>,
                                    ivs: nat -> Block, k: nat, commandLen: nat, max: nat)
    requires key != [] && NoneEmpty(chunks) && forall c <- chunks :: |c| <= max
    requires EncodedLen(max, mode) <= Room(mode, commandLen)
    ensures forall line <- Lines(keyed, key, mode, chunks, ivs, k) :: commandLen + |line| <= MAX_COMMAND_LENGTH
    decreases |chunks|
  {
    hide Encrypt, EncodedLen;
    if chunks != [] {
      assert chunks[0] in chunks && forall c <- chunks[1..] :: c in chunks;
      EncodedLenIs(keyed, key, chunks[0], mode, ivs(k));
      EncodedLenMonotone(|chunks[0]|, max, mode);
      LinesFit(keyed, key, mode, chunks[1..], ivs, k + 1, commandLen, max);
    }
  }

  /** What the other side reads: the star is dropped, each line decrypted. */
  function Read(keyed: seq<byte> -> Permutation, key: seq<byte>, mode: Mode, lines: seq<string>): seq<byte> {
    if lines == [] then []
    else
      var text := if mode == Cbc && lines[0] != "" then lines[0][1..] else lines[0];
      var plain := DecryptStr(keyed, key, text, mode);
      (if plain.Some? then plain.value else []) + Read(keyed, key, mode, lines[1..])
  }

  lemma {:induction false} ReadUndoesLines(keyed: seq<byte> -> Permutation, key: seq<byte>, mode: Mode,
                                           chunks: seq<seq<byte>>, ivs: nat -> Block, k: nat)
    requires Inverse(keyed(key)) && key != [] && 0 !in key
    requires NoneEmpty(chunks) && forall c <- chunks :: 0 !in c
    ensures Read(keyed, key, mode, Lines(keyed, key, mode, chunks, ivs, k)) == Concat(chunks)
    decreases |chunks|
  {
    hide Encrypt, DecryptStr, Inverse;
    if chunks != [] {
      assert chunks[0] in chunks && forall c <- chunks[1..] :: c in chunks;
      RoundTripIff(keyed, key, chunks[0], mode, ivs(k));
      ReadUndoesLines(keyed, key, mode, chunks[1..], ivs, k + 1);
      var text := Encrypt(keyed, key, chunks[0], mode, ivs(k)).value;
      assert (Star(mode) + text)[|Star(mode)|..] == text;
      var lines := Lines(keyed, key, mode, chunks, ivs, k);
      assert lines[0] == Star(mode) + text && lines[1..] == Lines(keyed, key, mode, chunks[1..], ivs, k + 1);
    }
  }

  lemma {:induction false} PartsOf(parts: seq<seq<byte>>)
    ensures forall c <- parts, b <- c :: b in Concat(parts)
  {
    if parts != [] {
      PartsOf(parts[1..]);
    }
  }

  /** End to end: a text sent in as many lines as it takes is read back whole. */
  lemma SentTextIsRead(keyed: seq<byte> -> Permutation, key: seq<byte>, mode: Mode, data: seq<byte>, max: nat,
                       ivs: nat -> Block)
    requires Inverse(keyed(key)) && key != [] && 0 !in key && 0 !in data && max >= 4
    ensures NoneEmpty(Chunks(data, max)) &&
      Read(keyed, key, mode, Lines(keyed, key, mode, Chunks(data, max), ivs, 0)) == data
  {
    hide Inverse, Chunks, Lines, Read;
    ChunksPartition(data, max);
    ChunksNotEmpty(data, max);
    PartsOf(Chunks(data, max));
    ReadUndoesLines(keyed, key, mode, Chunks(data, max), ivs, 0);
  }
}

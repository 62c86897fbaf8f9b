/**
 FiSH message encryption.  Blowfish is an arbitrary permutation of 8-byte
 blocks for each key; the padding, the chaining and the text forms are the
 program's own.
 */
module FishCipher {
  import opened Wrappers
  import opened Base64
  import opened CBytes
  import F = FishBase64

  datatype Mode = Ecb | Cbc

  type Block = b: seq<byte> | |b| == 8 witness [0, 0, 0, 0, 0, 0, 0, 0]

  datatype Permutation = Permutation(enc: Block -> Block, dec: Block -> Block)

  /** Decryption of a block undoes its encryption. */
  ghost predicate Inverse(p: Permutation) {
    forall b: Block :: p.dec(p.enc(b)) == b
  }

  // ----- chaining -----

  /** Bitwise exclusive or of two numbers of `bits` bits. */
  function Xor(a: nat, b: nat, bits: nat): (r: nat)
    decreases bits
  {
    if bits == 0 then 0 else 2 * Xor(a / 2, b / 2, bits - 1) + (if a % 2 == b % 2 then 0 else 1)
  }

  function Pow2(n: nat): nat {
    if n == 0 then 1 else 2 * Pow2(n - 1)
  }

  lemma {:induction false} XorSize(a: nat, b: nat, bits: nat)
    ensures Xor(a, b, bits) < Pow2(bits)
    decreases bits
  {
    if bits > 0 {
      XorSize(a / 2, b / 2, bits - 1);
    }
  }

  lemma {:induction false} XorTwice(a: nat, b: nat, bits: nat)
    requires a < Pow2(bits)
    ensures Xor(Xor(a, b, bits), b, bits) == a
    decreases bits
  {
    if bits > 0 {
      XorTwice(a / 2, b / 2, bits - 1);
      var x := Xor(a, b, bits);
      assert x / 2 == Xor(a / 2, b / 2, bits - 1);
    }
  }

  lemma ByteBits()
    ensures Pow2(8) == 256
  {
    assert Pow2(4) == 16;
    assert Pow2(8) == 2 * (2 * (2 * (2 * Pow2(4))));
  }

  function XorByte(a: byte, b: byte): byte {
    ByteBits();
    XorSize(a, b, 8);
    Xor(a, b, 8)
  }

  function XorBlock(a: Block, b: Block): Block {
    seq(8, i requires 0 <= i < 8 => XorByte(a[i], b[i]))
  }

  lemma XorBlockTwice(a: Block, b: Block)
    ensures XorBlock(XorBlock(a, b), b) == a
  {
    forall i | 0 <= i < 8 ensures XorBlock(XorBlock(a, b), b)[i] == a[i] {
      ByteBits();
      XorTwice(a[i], b[i], 8);
    }
  }

  /** Every block for itself. */
  function EcbRun(f: Block -> Block, data: seq<byte>): (r: seq<byte>)
    requires |data| % 8 == 0
    ensures |r| == |data|
  {
    if data == [] then [] else f(data[..8]) + EcbRun(f, data[8..])
  }

  /** Each block is mixed with the previous cipher block before encryption. */
  function CbcEnc(p: Permutation, iv: Block, data: seq<byte>): (r: seq<byte>)
    requires |data| % 8 == 0
    ensures |r| == |data|
    decreases |data|
  {
    if data == [] then []
    else
      var c := p.enc(XorBlock(data[..8], iv));
      c + CbcEnc(p, c, data[8..])
  }

  function CbcDec(p: Permutation, iv: Block, data: seq<byte>): (r: seq<byte>)
    requires |data| % 8 == 0
    ensures |r| == |data|
    decreases |data|
  {
    if data == [] then []
    else XorBlock(p.dec(data[..8]), iv) + CbcDec(p, data[..8], data[8..])
  }

  /** Block `i` of a buffer. */
  function BlockAt(data: seq<byte>, i: nat): Block
    requires 8 * i + 8 <= |data|
  {
    data[8 * i..8 * i + 8]
  }

  lemma BlockLater(data: seq<byte>, i: nat)
    requires i > 0 && 8 * i + 8 <= |data|
    ensures 8 * (i - 1) + 8 <= |data[8..]| && BlockAt(data[8..], i - 1) == BlockAt(data, i)
  {
  }

  /** In ECB mode each block stands for itself. */
  lemma {:induction false} EcbIs(f: Block -> Block, data: seq<byte>, i: nat)
    requires |data| % 8 == 0 && 8 * i + 8 <= |data|
    ensures BlockAt(EcbRun(f, data), i) == f(BlockAt(data, i))
  {
    var r := EcbRun(f, data);
    assert r[8..] == EcbRun(f, data[8..]);
    if i > 0 {
      BlockLater(data, i);
      BlockLater(r, i);
      EcbIs(f, data[8..], i - 1);
    }
  }

  /** In CBC mode each block is mixed with the one sent before it, the first with
      the IV, and only then encrypted. */
  lemma {:induction false} CbcIs(p: Permutation, iv: Block, data: seq<byte>, i: nat)
    requires |data| % 8 == 0 && 8 * i + 8 <= |data|
    ensures var r := CbcEnc(p, iv, data);
      BlockAt(r, i) == p.enc(XorBlock(BlockAt(data, i), if i == 0 then iv else BlockAt(r, i - 1)))
    decreases i
  {
    hide XorBlock;
    var c := p.enc(XorBlock(data[..8], iv));
    var r := CbcEnc(p, iv, data);
    assert r[8..] == CbcEnc(p, c, data[8..]) && BlockAt(r, 0) == c;
    if i > 0 {
      BlockLater(data, i);
      BlockLater(r, i);
      CbcIs(p, c, data[8..], i - 1);
      if i > 1 {
        BlockLater(r, i - 1);
      }
    }
  }

  lemma {:induction false} EcbUndoes(p: Permutation, data: seq<byte>)
    requires Inverse(p) && |data| % 8 == 0
    ensures EcbRun(p.dec, EcbRun(p.enc, data)) == data
  {
    if data != [] {
      EcbUndoes(p, data[8..]);
      var r := EcbRun(p.enc, data);
      assert r[..8] == p.enc(data[..8]) && r[8..] == EcbRun(p.enc, data[8..]);
    }
  }

  lemma {:induction false} CbcUndoes(p: Permutation, iv: Block, data: seq<byte>)
    requires Inverse(p) && |data| % 8 == 0
    ensures CbcDec(p, iv, CbcEnc(p, iv, data)) == data
    decreases |data|
  {
    hide XorBlock;
    if data != [] {
      var c := p.enc(XorBlock(data[..8], iv));
      var r := CbcEnc(p, iv, data);
      CbcUndoes(p, c, data[8..]);
      XorBlockTwice(data[..8], iv);
      assert r[..8] == c && r[8..] == CbcEnc(p, c, data[8..]);
    }
  }

  // ----- padding -----

  function PaddedLength(n: nat): (m: nat)
    ensures n <= m < n + 8 && m % 8 == 0
  {
    if n % 8 != 0 then n + 8 - n % 8 else n
  }

  function Zeros(n: nat): (z: seq<byte>)
    ensures |z| == n && forall b <- z :: b == 0
  {
    seq(n, _ => 0)
  }

  function Pad(data: seq<byte>): (r: seq<byte>)
    ensures |r| == PaddedLength(|data|)
  {
    data + Zeros(PaddedLength(|data|) - |data|)
  }

  // ----- the calls -----

  /** The keyed cipher of a message: `iv` is the random one of an encryption. */
  function Cipher(p: Permutation, data: seq<byte>, encode: bool, mode: Mode, iv: Block): Option<seq<byte>> {
    if data == [] then None
    else match mode
      case Ecb => Some(EcbRun(if encode then p.enc else p.dec, Pad(data)))
      case Cbc =>
        if encode then Some(iv + CbcEnc(p, iv, Pad(data)))
        else if |data| <= 8 then None
        else Some(CbcDec(p, data[..8], Pad(data[8..])))
  }

  /** fish_cipher: the padded copy is worked on in place, and an encryption in
      CBC mode sends its IV ahead. */
  method RunCipher(p: Permutation, plaintext: seq<byte>, encode: bool, mode: Mode, random: Block)
    returns (ciphertext: Option<seq<byte>>)
    ensures ciphertext == Cipher(p, plaintext, encode, mode, random)
  {
    if |plaintext| == 0 {
      return None;
    }
    var text := plaintext;
    var iv := random;
    if mode == Cbc && !encode {
      if |text| <= 8 {
        return None;
      }
      iv := text[..8];
      text := text[8..];
    }
    var blockSize := |text|;
    if blockSize % 8 != 0 {
      blockSize := blockSize + 8 - blockSize % 8;
    }
    var buffer := text + Zeros(blockSize - |text|);
    match mode {
      case Ecb => buffer := EcbRun(if encode then p.enc else p.dec, buffer);
      case Cbc => buffer := if encode then CbcEnc(p, iv, buffer) else CbcDec(p, iv, buffer);
    }
    if mode == Cbc && encode {
      return Some(iv + buffer);
    }
    return Some(buffer);
  }

  lemma CipherWhole(p: Permutation, data: seq<byte>, mode: Mode, iv: Block)
    requires data != []
    ensures var c := Cipher(p, data, true, mode, iv);
      c.Some? && |c.value| % 8 == 0 && |c.value| > 0 && (mode == Cbc ==> |c.value| > 8)
    ensures |Cipher(p, data, true, mode, iv).value| == PaddedLength(|data|) + (if mode == Cbc then 8 else 0)
  {
  }

  function Encrypt(keyed: seq<byte> -> Permutation, key: seq<byte>, message: seq<byte>, mode: Mode, iv: Block): Option<string> {
    if key == [] || message == [] then None
    else
      var c := Cipher(keyed(key), message, true, mode, iv).value;
      CipherWhole(keyed(key), message, mode, iv);
      match mode
      case Cbc => Some(Encode(c))
      case Ecb => Some(F.Encode(c))
  }

  /** fish_encrypt. */
  method FishEncrypt(keyed: seq<byte> -> Permutation, key: seq<byte>, message: seq<byte>, mode: Mode, iv: Block)
    returns (b64: Option<string>)
    ensures b64 == Encrypt(keyed, key, message, mode, iv)
  {
    hide Cipher, Encode, F.Encode;
    if |key| == 0 || |message| == 0 {
      return None;
    }
    CipherWhole(keyed(key), message, mode, iv);
    var ciphertext := RunCipher(keyed(key), message, true, mode, iv);
    match mode {
      case Cbc => b64 := Some(Encode(ciphertext.value));
      case Ecb => b64 := F.FishBase64Encode(ciphertext.value);
    }
  }

  /** The cipher text in a message, if it is one. */
  function Received(text: string, mode: Mode): Option<seq<byte>> {
    match mode
    case Cbc => if IsBase64(text) then Some(Decode(text)) else None
    case Ecb => F.Decode(text)
  }

  function Decrypt(keyed: seq<byte> -> Permutation, key: seq<byte>, text: string, mode: Mode): Option<seq<byte>> {
    if key == [] || text == "" then None
    else
      var c := Received(text, mode);
      if c.None? || c.value == [] then None
      else Cipher(keyed(key), c.value, false, mode, NO_IV)
  }

  /** A decryption takes its IV from the message. */
  const NO_IV: Block := [0, 0, 0, 0, 0, 0, 0, 0]

  /** fish_decrypt. */
  method FishDecrypt(keyed: seq<byte> -> Permutation, key: seq<byte>, data: string, mode: Mode)
    returns (plaintext: Option<seq<byte>>)
    ensures plaintext == Decrypt(keyed, key, data, mode)
  {
    hide Cipher, Decode, F.Decode;
    if |key| == 0 || |data| == 0 {
      return None;
    }
    var ciphertext: Option<seq<byte>>;
    match mode {
      case Cbc =>
        if !IsBase64(data) {
          return None;
        }
        ciphertext := Some(Decode(data));
      case Ecb => ciphertext := F.FishBase64Decode(data);
    }
    if ciphertext.None? || |ciphertext.value| == 0 {
      return None;
    }
    plaintext := RunCipher(keyed(key), ciphertext.value, false, mode, NO_IV);
  }

  /** The key is measured as a C string here, and so is the result. */
  function DecryptStr(keyed: seq<byte> -> Permutation, key: seq<byte>, text: string, mode: Mode): Option<seq<byte>> {
    var plain := Decrypt(keyed, CString(key), text, mode);
    if plain.None? || plain.value == [] then None else Some(CString(plain.value))
  }

  /** fish_decrypt_str. */
  method FishDecryptStr(keyed: seq<byte> -> Permutation, key: seq<byte>, data: string, mode: Mode)
    returns (plaintext: Option<seq<byte>>)
    ensures plaintext == DecryptStr(keyed, key, data, mode)
  {
    hide Decrypt;
    var decrypted := FishDecrypt(keyed, CString(key), data, mode);
    if decrypted.None? || |decrypted.value| == 0 {
      return None;
    }
    return Some(CString(decrypted.value));
  }

  // ----- round trip -----

  lemma CipherUndoes(p: Permutation, data: seq<byte>, mode: Mode, iv: Block)
    requires Inverse(p) && data != []
    ensures Cipher(p, Cipher(p, data, true, mode, iv).value, false, mode, NO_IV) == Some(Pad(data))
  {
    hide Inverse, EcbRun, CbcEnc, CbcDec;
    var plain := Pad(data);
    if mode == Ecb {
      EcbUndoes(p, plain);
      var c := EcbRun(p.enc, plain);
      assert c + Zeros(0) == c;
    } else {
      CbcUndoes(p, iv, plain);
      var c := CbcEnc(p, iv, plain);
      assert (iv + c)[..8] == iv && (iv + c)[8..] == c && c + Zeros(0) == c;
    }
  }

  lemma ReceivedIsSent(c: seq<byte>, mode: Mode)
    requires c != [] && |c| % 8 == 0
    ensures var text := if mode == Cbc then Encode(c) else F.Encode(c);
      text != "" && Received(text, mode) == Some(c)
  {
    hide Encode, Decode, F.Encode, F.Blocks, IsBase64;
    if mode == Cbc {
      EncodeShape(c);
      DecodeUndoesEncode(c);
    } else {
      F.EncodeShape(c);
      F.DecodeUndoesEncode(c);
    }
  }

  /** What comes back from any message: it up to its first zero byte.  In both
      modes, for every block permutation and every IV. */
  lemma DecryptUndoesEncrypt(keyed: seq<byte> -> Permutation, key: seq<byte>, message: seq<byte>, mode: Mode, iv: Block)
    requires Inverse(keyed(key)) && key != [] && 0 !in key && message != []
    ensures var text := Encrypt(keyed, key, message, mode, iv);
      text.Some? && DecryptStr(keyed, key, text.value, mode) == Some(CString(message))
  {
    hide Inverse, Cipher, Encode, F.Encode, Received;
    var p := keyed(key);
    CipherWhole(p, message, mode, iv);
    var c := Cipher(p, message, true, mode, iv).value;
    ReceivedIsSent(c, mode);
    CipherUndoes(p, message, mode, iv);
    CStringOfPrefix(message, Zeros(PaddedLength(|message|) - |message|));
  }

  /** So a message survives exactly when it holds no zero byte. */
  lemma RoundTripIff(keyed: seq<byte> -> Permutation, key: seq<byte>, message: seq<byte>, mode: Mode, iv: Block)
    requires Inverse(keyed(key)) && key != [] && 0 !in key && message != []
    ensures var text := Encrypt(keyed, key, message, mode, iv);
      text.Some? && (DecryptStr(keyed, key, text.value, mode) == Some(message) <==> 0 !in message)
  {
    hide Encrypt, DecryptStr;
    DecryptUndoesEncrypt(keyed, key, message, mode, iv);
  }
}

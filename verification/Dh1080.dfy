/**
 The key text of a DH1080 exchange: base64 without padding, and with one 'A'
 appended when there was none to drop.
 */
module Dh1080 {
  import opened Base64
  import opened CBytes

  /** Length of the text before the first '='. */
  function ToPad(s: string): (n: nat)
    ensures n <= |s| && forall i | 0 <= i < n :: s[i] != '='
    ensures n < |s| ==> s[n] == '='
    ensures n == |s| <==> '=' !in s
  {
    if s == "" || s[0] == '=' then 0 else 1 + ToPad(s[1..])
  }

  function EncodeKey(data: seq<byte>): string {
    var s := Encode(data);
    if '=' !in s then s + "A" else s[..ToPad(s)]
  }

  function Padded(s: string): string
    decreases (4 - |s| % 4) % 4
  {
    if |s| % 4 == 0 then s else Padded(s + "=")
  }

  function DecodeKey(text: string): seq<byte> {
    var s := if |text| % 4 == 1 && text[|text| - 1] == 'A' then text[..|text| - 1] else text;
    Decode(Padded(s))
  }

  lemma ToPadIs(s: string, n: nat)
    requires n <= |s| && (forall i | 0 <= i < n :: s[i] != '=') && (n < |s| ==> s[n] == '=')
    ensures ToPad(s) == n
  {
  }

  /** dh1080_encode_b64. */
  method EncodeB64(data: seq<byte>) returns (ret: string)
    ensures ret == EncodeKey(data)
  {
    hide Encode, ToPad;
    ret := Encode(data);
    var p := 0;
    while p < |ret| && ret[p] != '='
      invariant p <= |ret| && forall i | 0 <= i < p :: ret[i] != '='
    {
      p := p + 1;
    }
    ToPadIs(ret, p);
    if p == |ret| {
      ret := ret + "A";
    } else {
      ret := ret[..p];
    }
  }

  /** dh1080_decode_b64. */
  method DecodeB64(text: string) returns (data: seq<byte>)
    ensures data == DecodeKey(text)
  {
    var str := text;
    if |str| % 4 == 1 && str[|str| - 1] == 'A' {
      str := str[..|str| - 1];
    }
    ghost var cut := str;
    while |str| % 4 != 0
      invariant Padded(str) == Padded(cut)
      decreases (4 - |str| % 4) % 4
    {
      str := str + "=";
    }
    data := Decode(str);
  }

  /** As many '=' at the end as bytes are missing from the last group. */
  function Missing(n: nat): nat {
    (3 - n % 3) % 3
  }

  predicate PadsAtEnd(s: string, k: nat) {
    k <= |s| && (forall i | 0 <= i < |s| :: s[i] == '=' <==> |s| - k <= i)
  }

  /** The padding of an encoded text is at its end: none, "=" or "==". */
  lemma {:induction false} PadAtEnd(data: seq<byte>)
    ensures PadsAtEnd(Encode(data), Missing(|data|))
  {
    hide Quad;
    if |data| == 0 {
    } else if |data| <= 3 {
      QuadShape(data);
    } else {
      QuadShape(data[..3]);
      PadAtEnd(data[3..]);
      PadBehind(Quad(data[..3]), Encode(data[3..]), Missing(|data|));
    }
  }

  lemma PadBehind(quad: string, rest: string, k: nat)
    requires '=' !in quad && PadsAtEnd(rest, k)
    ensures PadsAtEnd(quad + rest, k)
  {
  }

  lemma PaddedRestores(s: string, k: nat)
    requires |s| % 4 == 0 && k <= 2 && PadsAtEnd(s, k)
    ensures Padded(s[..|s| - k]) == s
  {
    var cut := s[..|s| - k];
    if k == 0 {
      assert cut == s;
    } else if k == 1 {
      assert cut + "=" == s;
    } else {
      assert cut + "=" + "=" == s;
      assert Padded(cut) == Padded(cut + "=") == Padded(cut + "=" + "=");
    }
  }

  lemma PadFound(s: string, k: nat)
    requires PadsAtEnd(s, k)
    ensures ToPad(s) == |s| - k && ('=' in s <==> k > 0)
  {
    hide ToPad;
    ToPadIs(s, |s| - k);
    if k > 0 {
      assert s[|s| - k] == '=';
    }
  }

  lemma EncodedKey(data: seq<byte>)
    ensures var s, k := Encode(data), Missing(|data|);
      |s| % 4 == 0 && PadsAtEnd(s, k) && k <= |s| && EncodeKey(data) == if k == 0 then s + "A" else s[..|s| - k]
  {
    hide Encode, ToPad, PadsAtEnd;
    PadAtEnd(data);
    EncodeShape(data);
    PadFound(Encode(data), Missing(|data|));
    PadsFit(Encode(data), Missing(|data|));
  }

  /** Decoding gives back the bytes encoded, for every length. */
  lemma DecodeKeyUndoesEncodeKey(data: seq<byte>)
    ensures DecodeKey(EncodeKey(data)) == data
  {
    hide Encode, Decode, EncodeKey, Padded, PadsAtEnd;
    var s, k := Encode(data), Missing(|data|);
    EncodedKey(data);
    DecodeUndoesEncode(data);
    PadsFit(s, k);
    PaddedRestores(s, k);
    if k == 0 {
      assert (s + "A")[..|s|] == s == s[..|s| - k];
    }
  }

  lemma PadsFit(s: string, k: nat)
    requires PadsAtEnd(s, k)
    ensures k <= |s|
  {
  }

  /** The text is never padded, and its length tells the three cases apart. */
  lemma EncodedKeyShape(data: seq<byte>)
    ensures '=' !in EncodeKey(data)
    ensures |EncodeKey(data)| % 4 == [1, 2, 3][|data| % 3]
  {
    hide Encode, EncodeKey;
    EncodedKey(data);
  }
}

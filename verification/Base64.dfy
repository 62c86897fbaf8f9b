/**
 The base64 of section 4 of RFC 4648 as GLib computes it.
 */
module Base64 {
  import opened CBytes

  /** A base64 digit. */
  type sextet = x: int | 0 <= x < 64

  /** The alphabet is A-Z a-z 0-9 + /, in that order. */
  predicate IsDigit(c: char) {
    'A' <= c <= 'Z' || 'a' <= c <= 'z' || '0' <= c <= '9' || c == '+' || c == '/'
  }

  function Digit(d: sextet): (c: char)
    ensures IsDigit(c)
  {
    if d < 26 then 'A' + d as char
    else if d < 52 then 'a' + (d - 26) as char
    else if d < 62 then '0' + (d - 52) as char
    else if d == 62 then '+' else '/'
  }

  /** Rank of a character; '=' counts as zero, like GLib's table says. */
  function Rank(c: char): sextet {
    if 'A' <= c <= 'Z' then (c - 'A') as int
    else if 'a' <= c <= 'z' then (c - 'a') as int + 26
    else if '0' <= c <= '9' then (c - '0') as int + 52
    else if c == '+' then 62 else if c == '/' then 63 else 0
  }

  lemma RankOfDigit(d: sextet)
    ensures Rank(Digit(d)) == d && IsDigit(Digit(d)) && Digit(d) != '='
  {
  }

  /** Four characters for up to three bytes; missing ones show as '='. */
  function Quad(b: seq<byte>): string
    requires 1 <= |b| <= 3
  {
    var second := if |b| > 1 then b[1] else 0;
    var third := if |b| > 2 then b[2] else 0;
    [Digit(b[0] / 4),
     Digit(b[0] % 4 * 16 + second / 16),
     if |b| > 1 then Digit(second % 16 * 4 + third / 64) else '=',
     if |b| > 2 then Digit(third % 64) else '=']
  }

  function Encode(data: seq<byte>): string {
    if |data| == 0 then ""
    else if |data| <= 3 then Quad(data)
    else Quad(data[..3]) + Encode(data[3..])
  }

  lemma SplitThree(high: nat, mid: nat, low: nat)
    requires mid < 256 && low < 256
    ensures var v := 65536 * high + 256 * mid + low; v / 65536 == high && v / 256 % 256 == mid && v % 256 == low
  {
    assert (65536 * high + 256 * mid + low) / 256 == 256 * high + mid;
  }

  /** Division and remainder of the 24-bit group take it apart as packed. */
  lemma Unpack(a: sextet, b: sextet, c: sextet, d: sextet)
    ensures var v := ((a * 64 + b) * 64 + c) * 64 + d;
      v / 65536 == a * 4 + b / 16 && v / 256 % 256 == b % 16 * 16 + c / 4 && v % 256 == c % 4 * 64 + d
  {
    SplitThree(a * 4 + b / 16, b % 16 * 16 + c / 4, c % 4 * 64 + d);
    assert b == b / 16 * 16 + b % 16 && c == c / 4 * 4 + c % 4;
  }

  /** The bytes of one group of four: a trailing '=' holds one back. */
  function Group(s: string): seq<byte>
    requires |s| == 4
  {
    var v := ((Rank(s[0]) * 64 + Rank(s[1])) * 64 + Rank(s[2])) * 64 + Rank(s[3]);
    Unpack(Rank(s[0]), Rank(s[1]), Rank(s[2]), Rank(s[3]));
    [v / 65536] + (if s[2] != '=' then [v / 256 % 256] else []) + (if s[3] != '=' then [v % 256] else [])
  }

  /** Characters outside the alphabet are passed over. */
  function Known(s: string): string {
    if s == "" then "" else (if IsDigit(s[0]) || s[0] == '=' then [s[0]] else "") + Known(s[1..])
  }

  /** Group by group; an incomplete last group yields nothing. */
  function Groups(s: string): seq<byte> {
    if |s| < 4 then [] else Group(s[..4]) + Groups(s[4..])
  }

  function Decode(s: string): seq<byte> {
    Groups(Known(s))
  }

  predicate IsBase64(s: string) {
    forall c <- s :: IsDigit(c) || c == '='
  }

  lemma {:induction false} KnownAll(s: string)
    requires IsBase64(s)
    ensures Known(s) == s
  {
    if s != "" {
      KnownAll(s[1..]);
    }
  }

  lemma QuadShape(b: seq<byte>)
    requires 1 <= |b| <= 3
    ensures |Quad(b)| == 4 && IsBase64(Quad(b))
    ensures '=' in Quad(b) <==> |b| < 3
    ensures Quad(b)[0] != '=' && Quad(b)[1] != '=' && (Quad(b)[2] == '=' <==> |b| == 1) && (Quad(b)[3] == '=' <==> |b| <= 2)
  {
    hide Digit;
    var second := if |b| > 1 then b[1] else 0;
    var third := if |b| > 2 then b[2] else 0;
    RankOfDigit(b[0] / 4);
    RankOfDigit(b[0] % 4 * 16 + second / 16);
    RankOfDigit(second % 16 * 4 + third / 64);
    RankOfDigit(third % 64);
  }

  lemma GroupOf(s: string)
    requires |s| == 4
    ensures Group(s) == [Rank(s[0]) * 4 + Rank(s[1]) / 16] +
                        (if s[2] != '=' then [Rank(s[1]) % 16 * 16 + Rank(s[2]) / 4] else []) +
                        (if s[3] != '=' then [Rank(s[2]) % 4 * 64 + Rank(s[3])] else [])
  {
    hide Rank;
    Unpack(Rank(s[0]), Rank(s[1]), Rank(s[2]), Rank(s[3]));
  }

  lemma Repack(x: byte, y: byte, z: byte)
    ensures x / 4 * 4 + (x % 4 * 16 + y / 16) / 16 == x
    ensures (x % 4 * 16 + y / 16) % 16 * 16 + (y % 16 * 4 + z / 64) / 4 == y
    ensures (y % 16 * 4 + z / 64) % 4 * 64 + z % 64 == z
  {
  }

  lemma RanksOfQuad(b: seq<byte>)
    requires 1 <= |b| <= 3
    ensures |Quad(b)| == 4
    ensures Rank(Quad(b)[0]) == b[0] / 4
    ensures Rank(Quad(b)[1]) == b[0] % 4 * 16 + (if |b| > 1 then b[1] else 0) / 16
    ensures |b| > 1 ==> Rank(Quad(b)[2]) == b[1] % 16 * 4 + (if |b| > 2 then b[2] else 0) / 64
    ensures |b| > 2 ==> Rank(Quad(b)[3]) == b[2] % 64
  {
    hide Digit, Rank;
    var second := if |b| > 1 then b[1] else 0;
    var third := if |b| > 2 then b[2] else 0;
    RankOfDigit(b[0] / 4);
    RankOfDigit(b[0] % 4 * 16 + second / 16);
    RankOfDigit(second % 16 * 4 + third / 64);
    RankOfDigit(third % 64);
  }

  lemma GroupUndoesQuad(b: seq<byte>)
    requires 1 <= |b| <= 3
    ensures |Quad(b)| == 4 && Group(Quad(b)) == b
  {
    hide Digit, Rank, Group, Quad;
    QuadShape(b);
    RanksOfQuad(b);
    GroupOf(Quad(b));
    Repack(b[0], if |b| > 1 then b[1] else 0, if |b| > 2 then b[2] else 0);
  }

  lemma {:induction false} GroupsUndoEncode(data: seq<byte>)
    ensures Groups(Encode(data)) == data
  {
    hide Quad, Group;
    if |data| == 0 {
    } else if |data| <= 3 {
      GroupUndoesQuad(data);
      assert Quad(data)[..4] == Quad(data) && Quad(data)[4..] == "";
    } else {
      GroupUndoesQuad(data[..3]);
      GroupsUndoEncode(data[3..]);
      assert Encode(data)[..4] == Quad(data[..3]) && Encode(data)[4..] == Encode(data[3..]);
    }
  }

  lemma {:induction false} EncodeShape(data: seq<byte>)
    ensures IsBase64(Encode(data))
    ensures |Encode(data)| == (|data| + 2) / 3 * 4
  {
    hide Quad;
    if |data| == 0 {
    } else if |data| <= 3 {
      QuadShape(data);
    } else {
      QuadShape(data[..3]);
      EncodeShape(data[3..]);
    }
  }

  /** Decoding undoes encoding, for byte strings of every length. */
  lemma DecodeUndoesEncode(data: seq<byte>)
    ensures Decode(Encode(data)) == data
  {
    EncodeShape(data);
    KnownAll(Encode(data));
    GroupsUndoEncode(data);
  }
}

/**
 Bytes and C strings.
 */
module CBytes {
  type byte = x: int | 0 <= x < 256

  /** A C string ends at its first zero byte. */
  function CString(data: seq<byte>): (s: seq<byte>)
    ensures s <= data && 0 !in s
    ensures 0 !in data ==> s == data
    ensures |s| < |data| ==> data[|s|] == 0
  {
    if data == [] || data[0] == 0 then [] else [data[0]] + CString(data[1..])
  }

  lemma {:induction false} CStringOfPrefix(data: seq<byte>, z: seq<byte>)
    requires forall b <- z :: b == 0
    ensures CString(data + z) == CString(data)
  {
    if data == [] {
      assert data + z == z && (z != [] ==> z[0] in z);
    } else {
      assert (data + z)[1..] == data[1..] + z;
      CStringOfPrefix(data[1..], z);
    }
  }
}

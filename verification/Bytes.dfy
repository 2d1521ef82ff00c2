/** Big-endian integers of a fixed width. */
module Bytes {
  import opened MeshTypes

  function Power256(width: nat): nat {
    if width == 0 then 1 else 256 * Power256(width - 1)
  }

  function BigEndian(n: nat, width: nat): (r: seq<byte>)
    ensures |r| == width
  {
    if width == 0 then [] else BigEndian(n / 256, width - 1) + [n % 256]
  }

  function FromBigEndian(bytes: seq<byte>): nat {
    if bytes == [] then 0 else 256 * FromBigEndian(bytes[..|bytes| - 1]) + bytes[|bytes| - 1]
  }

  lemma {:induction false} BigEndianRoundTrip(n: nat, width: nat)
    requires n < Power256(width)
    ensures FromBigEndian(BigEndian(n, width)) == n
  {
    if width > 0 {
      BigEndianRoundTrip(n / 256, width - 1);
      var r := BigEndian(n, width);
      assert r[..width - 1] == BigEndian(n / 256, width - 1);
    }
  }

  lemma {:induction false} FromBigEndianBound(bytes: seq<byte>)
    ensures FromBigEndian(bytes) < Power256(|bytes|)
  {
    if bytes != [] {
      FromBigEndianBound(bytes[..|bytes| - 1]);
    }
  }

  lemma {:induction false} FromBigEndianRoundTrip(bytes: seq<byte>)
    ensures BigEndian(FromBigEndian(bytes), |bytes|) == bytes
  {
    if bytes != [] {
      var n := |bytes| - 1;
      FromBigEndianRoundTrip(bytes[..n]);
      assert bytes == bytes[..n] + [bytes[n]];
    }
  }

  lemma Widths()
    ensures Power256(2) == 65_536 && Power256(4) == U32_MAX + 1 && Power256(8) == U64_MAX + 1 && Power256(32) == ID_SPACE
  {
    assert Power256(2) == 65_536;
    assert Power256(4) == 65_536 * Power256(2);
    assert Power256(8) == 65_536 * 65_536 * Power256(4);
    assert Power256(12) == 65_536 * 65_536 * Power256(8);
    assert Power256(16) == 65_536 * 65_536 * Power256(12);
    assert Power256(20) == 65_536 * 65_536 * Power256(16);
    assert Power256(24) == 65_536 * 65_536 * Power256(20);
    assert Power256(28) == 65_536 * 65_536 * Power256(24);
    assert Power256(32) == 65_536 * 65_536 * Power256(28);
  }
}

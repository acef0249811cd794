/**
 * The compact fingerprint of an entry (`File.__bytes__`): the name's bytes,
 * one flag byte ('D' for a directory, 'F' for a file), then the absolute size
 * and the absolute modification time, each as 6 little-endian bytes.
 * `int.to_bytes(6, ...)` raises for a value of 2^48 or more; that is the
 * `None` result of Encode.
 */
module Fingerprint {
  import opened Wrappers
  import opened Entries

  const FlagDir: byte := 0x44   // 'D'
  const FlagFile: byte := 0x46  // 'F'

  /** Width in bytes of each numeric field. */
  const FieldWidth: nat := 6

  /** Total length of the fixed part after the name: flag plus two fields. */
  const TrailerLength: nat := 13

  /** 2^48: the first value six bytes cannot hold. */
  const FieldLimit: nat := 0x1_0000_0000_0000

  function Abs(x: int): (r: nat)
    ensures r == x || r == -x
  {
    if x < 0 then -x else x
  }

  function Pow256(n: nat): (r: nat)
    ensures r >= 1
  {
    if n == 0 then 1 else 256 * Pow256(n - 1)
  }

  lemma FieldLimitIsPow256()
    ensures Pow256(FieldWidth) == FieldLimit
  {
  }

  /** `v.to_bytes(n, byteorder="little")`, defined where it does not overflow. */
  function LittleEndian(v: nat, n: nat): (r: seq<byte>)
    requires v < Pow256(n)
    ensures |r| == n
  {
    if n == 0 then [] else [v % 256] + LittleEndian(v / 256, n - 1)
  }

  /** `int.from_bytes(s, byteorder="little")`. */
  function FromLittleEndian(s: seq<byte>): (v: nat)
    ensures v < Pow256(|s|)
  {
    if s == [] then 0 else s[0] + 256 * FromLittleEndian(s[1..])
  }

  lemma {:induction false} FromLittleEndianInverts(v: nat, n: nat)
    requires v < Pow256(n)
    ensures FromLittleEndian(LittleEndian(v, n)) == v
  {
    if n > 0 {
      FromLittleEndianInverts(v / 256, n - 1);
      assert LittleEndian(v, n)[1..] == LittleEndian(v / 256, n - 1);
    }
  }

  lemma {:induction false} LittleEndianInverts(s: seq<byte>)
    ensures LittleEndian(FromLittleEndian(s), |s|) == s
  {
    if s != [] {
      var rest := FromLittleEndian(s[1..]);
      var v := s[0] + 256 * rest;
      assert v % 256 == s[0] && v / 256 == rest;
      LittleEndianInverts(s[1..]);
      assert s == [s[0]] + s[1..];
    }
  }

  function Flag(isDir: bool): byte
  {
    if isDir then FlagDir else FlagFile
  }

  /** `bytes(file)`; `None` where `to_bytes(6)` would raise OverflowError. */
  function Encode(e: Entry): (r: Option<seq<byte>>)
    ensures r.Some? <==> Abs(e.size) < FieldLimit && Abs(e.mtime) < FieldLimit
    ensures r.Some? ==> |r.value| == |e.name| + TrailerLength
    ensures r.Some? ==> r.value[..|e.name|] == e.name
    ensures r.Some? ==> r.value[|e.name|] == (if e.isDir then 'D' as int else 'F' as int)
  {
    FieldLimitIsPow256();
    if Abs(e.size) < FieldLimit && Abs(e.mtime) < FieldLimit then
      Some(e.name + [Flag(e.isDir)]
           + LittleEndian(Abs(e.size), FieldWidth)
           + LittleEndian(Abs(e.mtime), FieldWidth))
    else
      None
  }

  /** What a fingerprint determines: the name bytes, the flag, and the two magnitudes. */
  datatype Decoded = Decoded(name: seq<byte>, isDir: bool, absSize: nat, absMtime: nat)

  /** Reads a fingerprint from its fixed-size end, so a name may hold any bytes. */
  function Decode(b: seq<byte>): (r: Option<Decoded>)
    ensures r.Some? ==> |b| == |r.value.name| + TrailerLength
    ensures r.Some? ==> r.value.absSize < FieldLimit && r.value.absMtime < FieldLimit
  {
    FieldLimitIsPow256();
    if |b| < TrailerLength then None
    else
      var n := |b| - TrailerLength;
      if b[n] != FlagDir && b[n] != FlagFile then None
      else Some(Decoded(b[..n], b[n] == FlagDir,
                        FromLittleEndian(b[n + 1..n + 7]),
                        FromLittleEndian(b[n + 7..])))
  }

  /** Decoding a fingerprint gives back the name, the flag and |size|, |mtime|: the sign is lost. */
  lemma DecodeEncode(e: Entry)
    requires Encode(e).Some?
    ensures Decode(Encode(e).value) == Some(Decoded(e.name, e.isDir, Abs(e.size), Abs(e.mtime)))
  {
    FieldLimitIsPow256();
    var b := Encode(e).value;
    var n := |e.name|;
    var sizeBytes := LittleEndian(Abs(e.size), FieldWidth);
    var mtimeBytes := LittleEndian(Abs(e.mtime), FieldWidth);
    assert b == e.name + [Flag(e.isDir)] + sizeBytes + mtimeBytes;
    assert b[n + 1..n + 7] == sizeBytes;
    assert b[n + 7..] == mtimeBytes;
    FromLittleEndianInverts(Abs(e.size), FieldWidth);
    FromLittleEndianInverts(Abs(e.mtime), FieldWidth);
  }

  /** Every decodable byte string is the fingerprint of each entry it describes. */
  lemma EncodeDecode(b: seq<byte>, e: Entry)
    requires Decode(b).Some?
    requires e.name == Decode(b).value.name && e.isDir == Decode(b).value.isDir
    requires Abs(e.size) == Decode(b).value.absSize && Abs(e.mtime) == Decode(b).value.absMtime
    ensures Encode(e) == Some(b)
  {
    FieldLimitIsPow256();
    var n := |b| - TrailerLength;
    LittleEndianInverts(b[n + 1..n + 7]);
    LittleEndianInverts(b[n + 7..]);
    assert b == b[..n] + [b[n]] + b[n + 1..n + 7] + b[n + 7..];
  }

  /** Entries that differ only in the signs of size and mtime share a fingerprint. */
  lemma SignIsNotEncoded(e: Entry)
    ensures Encode(e) == Encode(e.(size := -e.size, mtime := -e.mtime))
  {
  }
}

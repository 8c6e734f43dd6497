/** The spell hotkeys blob (LoadHotkeys and SaveHotkeys in
    Source/loadsave.cpp): the four _pSplHotKey words, the four _pSplTHotKey
    bytes, _pRSpell and _pRSplType, 25 bytes under the name "hotkeys". */
module Hotkeys {
  import opened Wire
  import opened Cursor
  import opened Layout
  import opened Codec

  const HotkeyName: string := "hotkeys"

  /** The number of entries of _pSplHotKey and of _pSplTHotKey. */
  const HotkeyCount: nat := 4

  /** The record: four spells, four spell types, the readied spell and its
      type. */
  const HotkeyLen: nat := 10

  /** (nHotkeyTypes * 4) + nHotkeySpells + 4 + 1 */
  const HotkeyBytes: nat := 25

  function HotkeyLayout(): Layout
  {
    Repeat(Field(LE32), HotkeyCount) + Repeat(Field(U8), HotkeyCount) +  // _pSplHotKey, _pSplTHotKey
    [Field(LE32), Field(U8)]  // _pRSpell, _pRSplType
  }

  function HotkeyCodec(): Codec
  {
    Plain(HotkeyLayout())
  }

  /** Ten fields, no padding, 25 bytes: exactly the length SaveHotkeys
      allocates. */
  lemma {:induction false} HotkeyShape()
    ensures |HotkeyLayout()| == HotkeyLen && NoSkip(HotkeyLayout())
    ensures Size(HotkeyLayout()) == HotkeyBytes
  {
    var a := Repeat(Field(LE32), HotkeyCount);  // _pSplHotKey
    var b := Repeat(Field(U8), HotkeyCount);  // _pSplTHotKey
    var c := [Field(LE32), Field(U8)];  // _pRSpell, _pRSplType
    SizeRepeat(Field(LE32), HotkeyCount);  // _pSplHotKey
    SizeRepeat(Field(U8), HotkeyCount);  // _pSplTHotKey
    SizeConcat(a, b);
    SizeConcat(a + b, c);
    assert Size(c) == 5;
  }

  /** What the proofs below need to know of the layout. */
  predicate IsHotkeyLayout(L: Layout)
  {
    |L| == HotkeyLen && NoSkip(L) && Size(L) == HotkeyBytes
  }

  /** The bytes SaveHotkeys hands to the archive: the record written with
      layout L into a fresh 25-byte buffer (whose initial contents are the
      allocation's). */
  function BlobOf(L: Layout, hk: Record, alloc: seq<byte>): (blob: seq<byte>)
    requires |hk| == |L| && NoSkip(L) && |alloc| >= HotkeyBytes
  {
    PlainValid(L);
    EncodeStaysIn(L, hk, Writer(true, alloc, 0, HotkeyBytes));
    var w := Save(Plain(L), hk, Writer(true, alloc, 0, HotkeyBytes));
    w.buf[..w.ptr]
  }

  /** What LoadHotkeys leaves in the player: nothing changes when the blob
      is missing or empty (`!file.isValid()`), otherwise the fields read. */
  function LoadFrom(L: Layout, files: map<string, seq<byte>>, dest: Record): (hk: Record)
    requires |dest| == |L|
    ensures |hk| == |L|
    ensures HotkeyName !in files || |files[HotkeyName]| == 0 ==> hk == dest
  {
    PlainValid(L);
    var r := Reader(HotkeyName in files, if HotkeyName in files then files[HotkeyName] else [], 0);
    if !CanRead(r, 1) then dest else Load(Plain(L), dest, r).0
  }

  function HotkeysBlob(hk: Record, alloc: seq<byte>): seq<byte>
    requires |hk| == |HotkeyLayout()| && |alloc| >= HotkeyBytes
  {
    HotkeyShape();
    BlobOf(HotkeyLayout(), hk, alloc)
  }

  function LoadHotkeysFrom(files: map<string, seq<byte>>, dest: Record): Record
    requires |dest| == |HotkeyLayout()|
  {
    LoadFrom(HotkeyLayout(), files, dest)
  }

  lemma {:induction false} RoundTripOf(L: Layout, files: map<string, seq<byte>>, hk: Record, dest: Record, alloc: seq<byte>)
    requires IsHotkeyLayout(L) && WellFormed(L, hk) && |dest| == |L| && |alloc| >= HotkeyBytes
    ensures |BlobOf(L, hk, alloc)| == HotkeyBytes
    ensures LoadFrom(L, files[HotkeyName := BlobOf(L, hk, alloc)], dest) == hk
  {
    PlainValid(L);
    var c := Plain(L);
    var w := Writer(true, alloc, 0, HotkeyBytes);
    var w' := Save(c, hk, w);
    SaveMatches(c, hk, w);
    var blob := w'.buf[..w'.ptr];
    assert blob[0..HotkeyBytes] == w'.buf[0..HotkeyBytes];
    LoadMatches(c, hk, dest, Reader(true, blob, 0));
    PlainExpected(L, hk, dest);
    MergeNoSkip(L, hk, dest);
  }

  /** The blob SaveHotkeys writes is 25 bytes long and LoadHotkeys reads
      back exactly the saved hotkeys, whatever the player held before and
      whatever else the archive holds. */
  lemma {:induction false} HotkeysRoundTrip(files: map<string, seq<byte>>, hk: Record, dest: Record, alloc: seq<byte>)
    requires WellFormed(HotkeyLayout(), hk) && |dest| == HotkeyLen && |alloc| >= HotkeyBytes
    ensures |HotkeysBlob(hk, alloc)| == HotkeyBytes
    ensures LoadHotkeysFrom(files[HotkeyName := HotkeysBlob(hk, alloc)], dest) == hk
  {
    HotkeyShape();
    RoundTripOf(HotkeyLayout(), files, hk, dest, alloc);
  }

  // ---------------------------------------------------------------------
  // The functions themselves, over the archive

  method LoadHotkeys(archive: Archive, dest: Record) returns (hk: Record)
    requires |dest| == |HotkeyLayout()|
    ensures hk == LoadHotkeysFrom(archive.files, dest)
  {
    hk := LoadWith(archive, HotkeyLayout(), dest);
  }

  method LoadWith(archive: Archive, L: Layout, dest: Record) returns (hk: Record)
    requires |dest| == |L|
    ensures hk == LoadFrom(L, archive.files, dest)
  {
    PlainValid(L);
    var file := new LoadHelper(archive, HotkeyName);
    var ok := file.IsValid(1);
    if !ok {
      return dest;
    }
    hk := LoadFields(file, L, dest);
  }

  method SaveHotkeys(archive: Archive, hk: Record, alloc: seq<byte>)
    requires |hk| == |HotkeyLayout()| && |alloc| >= HotkeyBytes
    modifies archive
    ensures archive.files == old(archive.files)[HotkeyName := HotkeysBlob(hk, alloc)]
  {
    HotkeyShape();
    SaveWith(archive, HotkeyLayout(), hk, alloc);
  }

  method SaveWith(archive: Archive, L: Layout, hk: Record, alloc: seq<byte>)
    requires |hk| == |L| && NoSkip(L) && |alloc| >= HotkeyBytes
    modifies archive
    ensures archive.files == old(archive.files)[HotkeyName := BlobOf(L, hk, alloc)]
  {
    PlainValid(L);
    var file := new SaveHelper(HotkeyName, HotkeyBytes, alloc);
    SaveFields(file, L, hk);
    EncodeStaysIn(L, hk, Writer(true, alloc, 0, HotkeyBytes));
    file.Flush(archive);
  }
}

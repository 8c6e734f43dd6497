/** Save format negotiation: the four-character tag at the start of the
    "game" blob (IsHeaderValid and the tag SaveGame writes, in
    Source/loadsave.cpp) and the table sizes that the tag's version fixes. */
module Header {
  import opened Wire

  /** The tags as the little-endian 32-bit values that are compared and
      written (LOAD_LE32 of the four characters; see TagValues). */
  const SHAR: nat := 0x5241_4853
  const SHLF: nat := 0x464C_4853
  const RETL: nat := 0x4C54_4552
  const HELF: nat := 0x464C_4548

  lemma {:induction false} TagValues()
    ensures Tag("SHAR") == SHAR && Tag("SHLF") == SHLF
    ensures Tag("RETL") == RETL && Tag("HELF") == HELF
  {
    LE4("SHAR");
    LE4("SHLF");
    LE4("RETL");
    LE4("HELF");
  }

  lemma {:induction false} LE4(s: string)
    requires |s| == 4 && forall i :: 0 <= i < 4 ==> s[i] as int < 256
    ensures Tag(s) == s[0] as int + 0x100 * s[1] as int + 0x1_0000 * s[2] as int + 0x100_0000 * s[3] as int
  {
    var bs: seq<byte> := [s[0] as int as byte, s[1] as int as byte, s[2] as int as byte, s[3] as int as byte];
    assert FromLE(bs[3..]) == bs[3] as nat by {
      assert bs[3..][1..] == [];
    }
    assert bs[2..][1..] == bs[3..];
    assert bs[1..][1..] == bs[2..];
    assert FromLE(bs[2..]) == bs[2] as nat + 256 * bs[3] as nat;
    assert FromLE(bs[1..]) == bs[1] as nat + 256 * FromLE(bs[2..]);
  }

  /** What IsHeaderValid decides: whether the tag is accepted, and the value
      it leaves in gbIsHellfireSaveGame (which it resets to false first). */
  datatype Verdict = Verdict(valid: bool, hellfireSave: bool)

  function IsHeaderValid(magic: nat, spawn: bool): (v: Verdict)
    ensures v.valid <==> magic == SHAR || magic == SHLF || (!spawn && (magic == RETL || magic == HELF))
    ensures v.hellfireSave <==> magic == SHLF || (!spawn && magic == HELF)
    ensures v.hellfireSave ==> v.valid
  {
    if magic == SHAR then Verdict(true, false)
    else if magic == SHLF then Verdict(true, true)
    else if !spawn && magic == RETL then Verdict(true, false)
    else if !spawn && magic == HELF then Verdict(true, true)
    else Verdict(false, false)
  }

  /** The tag SaveGame writes for a build: spawn (shareware) builds write
      SHAR or SHLF, full builds RETL or HELF; the Hellfire flavour of each
      when the game runs as Hellfire. */
  function SaveTag(spawn: bool, hellfire: bool): (t: nat)
    ensures t in {SHAR, SHLF, RETL, HELF}
    ensures spawn ==> t == SHAR || t == SHLF
  {
    if spawn && !hellfire then SHAR
    else if spawn && hellfire then SHLF
    else if !spawn && hellfire then HELF
    else RETL
  }

  lemma {:induction false} TagsDistinct()
    ensures SHAR != SHLF && SHAR != RETL && SHAR != HELF
    ensures SHLF != RETL && SHLF != HELF && RETL != HELF
  {
  }

  /** A tag written by a build is accepted by the same build and announces
      exactly the version it was written with. */
  lemma {:induction false} SaveTagAccepted(spawn: bool, hellfire: bool)
    ensures IsHeaderValid(SaveTag(spawn, hellfire), spawn) == Verdict(true, hellfire)
  {
    TagsDistinct();
  }

  /** A full build reads every tag any build writes; a spawn build rejects
      the tags of full builds. */
  lemma {:induction false} CrossBuild(writerSpawn: bool, hellfire: bool, readerSpawn: bool)
    ensures IsHeaderValid(SaveTag(writerSpawn, hellfire), readerSpawn).valid <==> writerSpawn || !readerSpawn
    ensures IsHeaderValid(SaveTag(writerSpawn, hellfire), readerSpawn).valid ==>
              IsHeaderValid(SaveTag(writerSpawn, hellfire), readerSpawn).hellfireSave == hellfire
  {
    TagsDistinct();
  }

  /** The version-dependent table sizes: giNumberOfLevels, giNumberQuests
      and giNumberOfSmithPremiumItems. */
  datatype Tables = Tables(levels: nat, quests: nat, premium: nat)

  function TablesFor(hellfire: bool): (t: Tables)
    ensures hellfire ==> t == Tables(25, 24, 15)
    ensures !hellfire ==> t == Tables(17, 16, 6)
    ensures t.levels == t.quests + 1
  {
    if hellfire then Tables(25, 24, 15) else Tables(17, 16, 6)
  }
}

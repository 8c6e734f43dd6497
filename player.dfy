/** The player record (LoadPlayer and SavePlayer in Source/loadsave.cpp).

    SavePlayer is a fixed run of writes. Most of them are plain (what is
    written is read back, call for call). The item lists are SaveItem runs,
    two places fix values up on loading, and the tail of the record depends
    on the version. The model cuts the record into those pieces in the
    source's order, one codec each, and the player is one record per
    piece: the run functions of the codec module then give the round trip.

    The fixed dimensions the record depends on (MAX_PATH_LENGTH,
    PLR_NAME_LEN, NUM_INVLOC, NUM_INV_GRID_ELEM, MAXBELTITEMS) are declared
    outside Source/loadsave.cpp and are parameters here. The visited
    lists have NUMLEVELS entries in memory, of which SavePlayer and
    LoadPlayer move giNumberOfLevels, the version's level count. */
module Player {
  import opened Wire
  import opened Cursor
  import opened Layout
  import opened Codec
  import opened Header

  datatype Dims = Dims(path: nat, nameLen: nat, invLoc: nat, invGrid: nat, belt: nat)

  // ---------------------------------------------------------------------
  // The plain parts

  function Motion(path: nat): Layout
  {
    [Field(LE32)] + Repeat(Field(U8), path) +  // _pmode, walkpath
    [Field(Bool8), Field(Skip(2))]  // plractive, alignment
  }

  function Destination(): Layout
  {
    [Field(LE32), Field(LE32), Field(LE32),  // destAction, destParam1, destParam2
     Field(LE32), Field(LE32), Field(LE32),  // destParam3, destParam4, plrlevel
     Field(LE32), Field(LE32), Field(LE32), Field(LE32),  // _px, _py, _pfutx, _pfuty
     Field(LE32), Field(LE32)]  // _ptargx, _ptargy
  }

  function Position(): Layout
  {
    [Field(LE32), Field(LE32), Field(LE32), Field(LE32),  // _pownerx, _pownery, _poldx, _poldy
     Field(LE32), Field(LE32), Field(LE32), Field(LE32),  // _pxoff, _pyoff, _pxvel, _pyvel
     Field(LE32), Field(Skip(4)), Field(LE32), Field(Skip(4))]  // _pdir, unused, _pgfxnum, _pAnimData
  }

  function Animation(): Layout
  {
    [Field(LE32), Field(LE32), Field(LE32),  // _pAnimDelay, _pAnimCnt, _pAnimLen
     Field(LE32), Field(LE32), Field(LE32),  // _pAnimFrame, _pAnimWidth, _pAnimWidth2
     Field(Skip(4)), Field(LE32), Field(LE32)]  // _peflag, _plid, _pvid
  }

  function Spells(): Layout
  {
    [Field(LE32), Field(U8), Field(U8), Field(Skip(2)),  // _pSpell, _pSplType, _pSplFrom, alignment
     Field(LE32), Field(U8), Field(Skip(3)),  // _pTSpell, _pTSplType, alignment
     Field(LE32), Field(U8), Field(Skip(3)),  // _pRSpell, _pRSplType, alignment
     Field(LE32), Field(U8)]  // _pSBkSpell, _pSBkSplType
  }

  function SpellBook(): Layout
  {
    Repeat(Field(U8), 64) +  // _pSplLvl
    [Field(Skip(7)), Field(LE64), Field(LE64),  // alignment, _pMemSpells, _pAblSpells
     Field(LE64), Field(U8), Field(Skip(3))] +  // _pScrlSpells, _pSpellFlags, alignment
    Repeat(Field(LE32), 4) + Repeat(Field(U8), 4)  // _pSplHotKey, _pSplTHotKey
  }

  function Weapon(nameLen: nat): Layout
  {
    [Field(LE32), Field(U8), Field(U8),  // _pwtype, _pBlockFlag, _pInvincible
     Field(U8), Field(U8), Field(Bytes(nameLen))]  // _pLightRad, _pLvlChanging, _pName
  }

  /** _pmode to _pName. */
  function Head(d: Dims): Layout
  {
    Motion(d.path) + Destination() + Position() + Animation() + Spells() + SpellBook() + Weapon(d.nameLen)
  }

  function Life(): Layout
  {
    [Field(LE32), Field(LE32), Field(LE32),  // _pHPBase, _pMaxHPBase, _pHitPoints
     Field(LE32), Field(LE32), Field(LE32),  // _pMaxHP, _pHPPer, _pManaBase
     Field(LE32), Field(LE32), Field(LE32),  // _pMaxManaBase, _pMana, _pMaxMana
     Field(LE32), Field(U8), Field(U8)]  // _pManaPer, _pLevel, _pMaxLvl
  }

  function Experience(): Layout
  {
    [Field(Skip(2)), Field(LE32), Field(LE32),  // alignment, _pExperience, _pMaxExp
     Field(LE32), Field(U8), Field(U8),  // _pNextExper, _pArmorClass, _pMagResist
     Field(U8), Field(U8), Field(LE32)]  // _pFireResist, _pLghtResist, _pGold
  }

  function Vars(): Layout
  {
    [Field(LE32), Field(LE32), Field(LE32), Field(LE32),  // _pInfraFlag, _pVar1, _pVar2, _pVar3
     Field(LE32), Field(LE32), Field(LE32), Field(LE32),  // _pVar4, _pVar5, _pVar6, _pVar7
     Field(LE32)]  // _pVar8
  }

  function Visited(levels: nat): Layout
  {
    Repeat(Field(Bool8), levels) + Repeat(Field(Bool8), levels)  // _pLvlVisited, _pSLvlVisited
  }

  /** The frame counts, with the eight animation addresses of each action
      skipped as one 32-byte run. */
  function Frames(): Layout
  {
    [Field(Skip(2)), Field(LE32), Field(Skip(32)),  // alignment, _pGFXLoad, _pNAnim
     Field(LE32), Field(LE32), Field(Skip(32)),  // _pNFrames, _pNWidth, _pWAnim
     Field(LE32), Field(LE32), Field(Skip(32)),  // _pWFrames, _pWWidth, _pAAnim
     Field(LE32), Field(LE32), Field(LE32)]  // _pAFrames, _pAWidth, _pAFNum
  }

  function MoreFrames(): Layout
  {
    [Field(Skip(32)), Field(Skip(32)), Field(Skip(32)),  // _pLAnim, _pFAnim, _pTAnim
     Field(LE32), Field(LE32), Field(LE32),  // _pSFrames, _pSWidth, _pSFNum
     Field(Skip(32)), Field(LE32), Field(LE32),  // _pHAnim, _pHFrames, _pHWidth
     Field(Skip(32)), Field(LE32), Field(LE32)]  // _pDAnim, _pDFrames, _pDWidth
  }

  /** The fields before _pLvlVisited, and those after _pSLvlVisited. */
  function VitalsHead(): Layout
  {
    Life() + Experience() + Vars()
  }

  function VitalsRest(): Layout
  {
    Frames() + MoreFrames() + [Field(Skip(32)), Field(LE32), Field(LE32)]  // _pBAnim, _pBFrames, _pBWidth
  }

  /** _pHPBase to _pBWidth, with levels entries in each visited list. */
  function Vitals(levels: nat): Layout
  {
    VitalsHead() + Visited(levels) + VitalsRest()
  }

  // ---------------------------------------------------------------------
  // The visited lists: NUMLEVELS entries in memory, giNumberOfLevels on file

  /** NUMLEVELS, the length of _pLvlVisited and _pSLvlVisited in memory
      whatever the version (Hellfire's level count). */
  const NumLevels: nat := 25

  /** Where _pLvlVisited starts in the vitals, and the number of fields
      after _pSLvlVisited. */
  const VisitedAt: nat := 30
  const RestLen: nat := 27

  function VitalsLen(levels: nat): nat
  {
    VisitedAt + 2 * levels + RestLen
  }

  /** The vitals field in memory that field i of a layout with levels
      entries per visited list holds. */
  function MemIndex(i: nat, levels: nat): nat
  {
    if i < VisitedAt + levels then i
    else if i < VisitedAt + 2 * levels then i - levels + NumLevels
    else i - 2 * levels + 2 * NumLevels
  }

  /** Where memory field j sits in a layout with levels entries per
      visited list; -1 for an entry past levels, which it does not hold. */
  function WireIndex(j: nat, levels: nat): int
  {
    if j < VisitedAt + levels then j
    else if j < VisitedAt + NumLevels then -1
    else if j < VisitedAt + NumLevels + levels then j - NumLevels + levels
    else if j < VisitedAt + 2 * NumLevels then -1
    else j - 2 * NumLevels + 2 * levels
  }

  /** M is the vitals in memory and S the vitals of a version: S is M
      with each visited list cut to levels entries. */
  predicate IsVitalsPair(M: Layout, S: Layout, levels: nat)
  {
    levels <= NumLevels && |M| == VitalsLen(NumLevels) && |S| == VitalsLen(levels) &&
    forall i :: 0 <= i < |S| ==> S[i] == M[MemIndex(i, levels)]
  }

  /** The two indexings undo each other. */
  lemma {:induction false} IndexInverse(levels: nat)
    requires levels <= NumLevels
    ensures forall i :: 0 <= i < VitalsLen(levels) ==> MemIndex(i, levels) < VitalsLen(NumLevels) && WireIndex(MemIndex(i, levels), levels) == i
    ensures forall j :: 0 <= j < VitalsLen(NumLevels) && 0 <= WireIndex(j, levels) ==>
              WireIndex(j, levels) < VitalsLen(levels) && MemIndex(WireIndex(j, levels), levels) == j
  {
  }

  /** The slots of a vitals layout: the head, 2 * levels flags, the rest. */
  lemma {:induction false} VitalsSlots(levels: nat)
    ensures |VitalsHead()| == VisitedAt && |VitalsRest()| == RestLen && |Vitals(levels)| == VitalsLen(levels)
    ensures forall i :: 0 <= i < VitalsLen(levels) ==>
              Vitals(levels)[i] == if i < VisitedAt then VitalsHead()[i]
                                   else if i < VisitedAt + 2 * levels then Field(Bool8)
                                   else VitalsRest()[i - VisitedAt - 2 * levels]
  {
    var H, V, R := VitalsHead(), Visited(levels), VitalsRest();
    assert Vitals(levels) == H + V + R;
    forall i | VisitedAt <= i < VisitedAt + 2 * levels
      ensures Vitals(levels)[i] == Field(Bool8)
    {
      var k := i - VisitedAt;
      assert Vitals(levels)[i] == V[k];
      if k < levels {
        assert V[k] == Repeat(Field(Bool8), levels)[k];
      } else {
        assert V[k] == Repeat(Field(Bool8), levels)[k - levels];
      }
    }
  }

  /** Every version's vitals are the memory's with the visited lists cut. */
  lemma {:induction false} VitalsPair(levels: nat)
    requires levels <= NumLevels
    ensures IsVitalsPair(Vitals(NumLevels), Vitals(levels), levels)
  {
    VitalsSlots(levels);
    VitalsSlots(NumLevels);
    var M, S := Vitals(NumLevels), Vitals(levels);
    forall i | 0 <= i < |S|
      ensures S[i] == M[MemIndex(i, levels)]
    {
      var j := MemIndex(i, levels);
      if VisitedAt + 2 * levels <= i {
        assert j - VisitedAt - 2 * NumLevels == i - VisitedAt - 2 * levels;
      }
    }
  }

  /** The vitals a version writes: the fields of memory its layout has. */
  function VisitedCut(x: Record, levels: nat): (y: Record)
    requires levels <= NumLevels && |x| == VitalsLen(NumLevels)
    ensures |y| == VitalsLen(levels)
  {
    seq(VitalsLen(levels), i requires 0 <= i < VitalsLen(levels) => x[MemIndex(i, levels)])
  }

  /** The vitals after reading rec in a version's layout into d: the
      entries past levels keep d's values. */
  function VisitedPad(rec: Record, d: Record, levels: nat): (x: Record)
    requires levels <= NumLevels && |rec| == VitalsLen(levels) && |d| == VitalsLen(NumLevels)
    ensures |x| == VitalsLen(NumLevels)
  {
    IndexInverse(levels);
    seq(VitalsLen(NumLevels), j requires 0 <= j < VitalsLen(NumLevels) =>
      var i := WireIndex(j, levels); if i < 0 then d[j] else rec[i])
  }

  /** SavePlayer writes and LoadPlayer reads giNumberOfLevels entries of
      each visited list of NUMLEVELS. */
  function VitalsCodecOf(M: Layout, S: Layout, levels: nat): Codec
  {
    Codec(M, S, S,
          (a: Arg) => var x := a.r; if levels <= NumLevels && |x| == VitalsLen(NumLevels) then VisitedCut(x, levels) else x,
          (a: Arg) => var d := a.r; if levels <= NumLevels && |d| == VitalsLen(NumLevels) then VisitedCut(d, levels) else d,
          (a: Arg, b: Arg) => var rec, d := a.r, b.r;
            if levels <= NumLevels && |rec| == VitalsLen(levels) && |d| == VitalsLen(NumLevels) then VisitedPad(rec, d, levels) else d)
  }

  function VitalsCodec(levels: nat): Codec
  {
    VitalsCodecOf(Vitals(NumLevels), Vitals(levels), levels)
  }

  lemma {:induction false} VitalsCodecOfValid(M: Layout, S: Layout, levels: nat)
    requires IsVitalsPair(M, S, levels)
    ensures Valid(VitalsCodecOf(M, S, levels))
  {
    var c := VitalsCodecOf(M, S, levels);
    forall x | WellFormed(M, x) ensures WellFormed(S, c.toWire(Arg(x))) {
      var y := VisitedCut(x, levels);
      assert c.toWire(Arg(x)) == y;
      forall i | 0 <= i < |S| ensures Fits(S[i].kind, y[i]) {
        assert S[i] == M[MemIndex(i, levels)];
      }
    }
  }

  /** What a round trip gives memory field j: the saved value, or the
      destination's where the layout skips the field or does not hold
      it. */
  predicate VitalKept(M: Layout, j: nat, levels: nat)
    requires j < |M|
  {
    WireIndex(j, levels) < 0 || M[j].kind.Skip?
  }

  function VitalsRestored(M: Layout, x: Record, d: Record, levels: nat): (y: Record)
    requires |x| == |M| && |d| == |M|
    ensures |y| == |M|
    ensures forall j :: 0 <= j < |M| ==> y[j] == if VitalKept(M, j, levels) then d[j] else x[j]
  {
    seq(|M|, j requires 0 <= j < |M| => if VitalKept(M, j, levels) then d[j] else x[j])
  }

  /** Saved vitals loaded back in the same version: every field the layout
      reads returns; the skipped addresses and the visited entries past
      giNumberOfLevels keep the destination's values. */
  lemma {:induction false} VitalsExpected(M: Layout, S: Layout, levels: nat, x: Record, d: Record)
    requires IsVitalsPair(M, S, levels) && |x| == |M| && |d| == |M|
    ensures Valid(VitalsCodecOf(M, S, levels))
    ensures Expected(VitalsCodecOf(M, S, levels), x, d) == VitalsRestored(M, x, d, levels)
  {
    VitalsCodecOfValid(M, S, levels);
    IndexInverse(levels);
    var xc, dc := VisitedCut(x, levels), VisitedCut(d, levels);
    var m := Merge(S, xc, dc);
    var y := VisitedPad(m, d, levels);
    assert Expected(VitalsCodecOf(M, S, levels), x, d) == y;
    forall j | 0 <= j < |M|
      ensures y[j] == VitalsRestored(M, x, d, levels)[j]
    {
      var i := WireIndex(j, levels);
      if 0 <= i {
        assert S[i] == M[j];
        assert m[i] == if S[i].kind.Skip? then dc[i] else xc[i];
      }
    }
  }

  /** With every level on file, the vitals return as a plain record. */
  lemma {:induction false} AllLevelsPlain(M: Layout, x: Record, d: Record)
    requires |x| == |M| && |d| == |M| && |M| == VitalsLen(NumLevels)
    ensures VitalsRestored(M, x, d, NumLevels) == Merge(M, x, d)
  {
  }

  /** A field of the vitals survives a round trip exactly when the layout
      reads it or the destination already holds its value. */
  lemma {:induction false} VitalSurvives(M: Layout, x: Record, d: Record, levels: nat, j: nat)
    requires |x| == |M| && |d| == |M| && j < |M|
    ensures VitalsRestored(M, x, d, levels)[j] == x[j] <==> !VitalKept(M, j, levels) || d[j] == x[j]
  {
  }

  /** _pNumInv and InvGrid, between the inventory and the belt. */
  function Grid(invGrid: nat): Layout
  {
    [Field(LE32)] + Repeat(Field(U8), invGrid)  // _pNumInv, InvGrid
  }

  function ItemBonuses(): Layout
  {
    [Field(LE32), Field(LE32), Field(LE32),  // _pIMinDam, _pIMaxDam, _pIAC
     Field(LE32), Field(LE32), Field(LE32),  // _pIBonusDam, _pIBonusToHit, _pIBonusAC
     Field(LE32), Field(Skip(4)), Field(LE64),  // _pIBonusDamMod, alignment, _pISpells
     Field(LE32), Field(LE32), Field(U8)]  // _pIFlags, _pIGetHit, _pISplLvlAdd
  }

  function ItemPowers(): Layout
  {
    [Field(U8), Field(Skip(2)), Field(LE32),  // _pISplCost, alignment, _pISplDur
     Field(LE32), Field(LE32), Field(LE32),  // _pIEnAc, _pIFMinDam, _pIFMaxDam
     Field(LE32), Field(LE32), Field(LE32),  // _pILMinDam, _pILMaxDam, _pOilType
     Field(U8), Field(U8), Field(U8)]  // pTownWarps, pDungMsgs, pLvlLoad
  }

  /** _pIMinDam to pLvlLoad. */
  function Bonuses(): Layout
  {
    ItemBonuses() + ItemPowers()
  }

  // ---------------------------------------------------------------------
  // _pClass to _pBaseToBlk: a block chance of 0 is replaced on loading

  function Stats(): Layout
  {
    [Field(LE32), Field(LE32), Field(LE32),  // _pStrength, _pBaseStr, _pMagic
     Field(LE32), Field(LE32), Field(LE32),  // _pBaseMag, _pDexterity, _pBaseDex
     Field(LE32), Field(LE32), Field(LE32),  // _pVitality, _pBaseVit, _pStatPts
     Field(LE32)]  // _pDamageMod
  }

  function Block(): Layout
  {
    [Field(U8), Field(Skip(3))] + Stats() + [Field(LE32)]  // _pClass, alignment, _pBaseToBlk
  }

  const BlockLen: nat := 13
  const ClassSlot: nat := 0
  const ToBlkSlot: nat := 12

  predicate IsBlockLayout(L: Layout)
  {
    |L| == BlockLen && L[ClassSlot].kind == U8 && L[ToBlkSlot].kind == LE32
  }

  lemma {:induction false} BlockShape()
    ensures IsBlockLayout(Block())
  {
    assert Block()[ToBlkSlot] == Field(LE32);  // _pBaseToBlk
  }

  /** What LoadPlayer does after reading _pBaseToBlk: a 0 becomes the
      class's default, ToBlkTbl[_pClass] (the table is a parameter). */
  function FixBlock(rec: Record, toBlk: nat -> nat): Record
    requires |rec| == BlockLen
  {
    if NumOf(rec[ToBlkSlot]) == 0 then rec[ToBlkSlot := Num(toBlk(NumOf(rec[ClassSlot])))] else rec
  }

  function BlockCodecOf(L: Layout, toBlk: nat -> nat): Codec
  {
    Codec(L, L, L, (a: Arg) => a.r, (a: Arg) => a.r,
          (a: Arg, b: Arg) => var rec := a.r; if |rec| == BlockLen then FixBlock(rec, toBlk) else rec)
  }

  lemma {:induction false} BlockCodecValid(L: Layout, toBlk: nat -> nat)
    ensures Valid(BlockCodecOf(L, toBlk))
  {
  }

  /** Loading a saved block part: every written field returns, except that
      a block chance of 0 comes back as the default of the saved class; a
      nonzero one survives. */
  lemma {:induction false} BlockExpected(L: Layout, x: Record, dest: Record, toBlk: nat -> nat)
    requires IsBlockLayout(L) && |x| == BlockLen && |dest| == BlockLen
    ensures Valid(BlockCodecOf(L, toBlk))
    ensures var res := Expected(BlockCodecOf(L, toBlk), x, dest);
            |res| == BlockLen &&
            (forall k :: 0 <= k < BlockLen && k != ToBlkSlot ==> res[k] == if L[k].kind.Skip? then dest[k] else x[k]) &&
            res[ToBlkSlot] == (if NumOf(x[ToBlkSlot]) == 0 then Num(toBlk(NumOf(x[ClassSlot]))) else x[ToBlkSlot])
  {
    BlockCodecValid(L, toBlk);
    var m := Merge(L, x, dest);
    assert m[ToBlkSlot] == x[ToBlkSlot] && m[ClassSlot] == x[ClassSlot];
  }

  // ---------------------------------------------------------------------
  // pDungMsgs2 to the end: the part that depends on the version

  /** The fields in memory. */
  function Tail(): Layout
  {
    [Field(U8), Field(Bool8), Field(U8),  // pDungMsgs2, pBattleNet, pManaShield
     Field(Bool8), Field(LE16), Field(LE32),  // pOriginalCathedral, wReflections, pDiabloKillLevel
     Field(LE32), Field(LE32)]  // pDifficulty, pDamAcFlags
  }

  const TailLen: nat := 8
  const WireTailLen: nat := 10

  /** The one byte SavePlayer writes first: pDungMsgs2 under Hellfire,
      pBattleNet otherwise. */
  function FlagField(hellfire: bool): Field
  {
    if hellfire then Field(U8) else Field(Bool8)  // pDungMsgs2, pBattleNet
  }

  function TailEnd(): Layout
  {
    [Field(Skip(2)), Field(LE16), Field(Skip(14)),  // available, wReflections, available
     Field(LE32), Field(LE32), Field(LE32),  // pDiabloKillLevel, pDifficulty, pDamAcFlags
     Field(Skip(20))]  // available
  }

  /** What SavePlayer writes: the version's flag, then pOriginalCathedral
      always. */
  function TailSave(hellfire: bool): Layout
  {
    [FlagField(hellfire), Field(U8), Field(Bool8)] + TailEnd()  // pManaShield, pOriginalCathedral
  }

  /** What LoadPlayer reads: a base save's pOriginalCathedral byte is
      skipped. */
  function TailLoad(hellfire: bool): Layout
  {
    [FlagField(hellfire), Field(U8),  // pManaShield
     if hellfire then Field(Bool8) else Field(Skip(1))] + TailEnd()  // pOriginalCathedral
  }

  /** What the proofs below need of the three layouts: the kinds of the
      slots each memory field travels in, and the slots the Load side
      skips. */
  predicate IsTailLayouts(M: Layout, S: Layout, Ld: Layout, hellfire: bool)
  {
    |M| == TailLen && |S| == WireTailLen && |Ld| == WireTailLen &&
    S[0].kind == M[if hellfire then 0 else 1].kind && S[1].kind == M[2].kind && S[2].kind == M[3].kind &&
    S[4].kind == M[4].kind && S[6].kind == M[5].kind && S[7].kind == M[6].kind && S[8].kind == M[7].kind &&
    S[3].kind.Skip? && S[5].kind.Skip? && S[9].kind.Skip? && S[2].kind == Bool8 &&
    (forall k :: 0 <= k < WireTailLen && k != 2 ==> Ld[k] == S[k]) &&
    (if hellfire then Ld[2] == S[2] else Ld[2].kind == Skip(1)) &&
    (forall k :: 0 <= k < TailLen ==> !M[k].kind.Skip?)
  }

  lemma {:induction false} TailShape(hellfire: bool)
    ensures IsTailLayouts(Tail(), TailSave(hellfire), TailLoad(hellfire), hellfire)
  {
  }

  /** The memory fields in their wire slots (the one-byte slot holds the
      field the version writes there). */
  function TailSlots(x: Record, hellfire: bool): (rec: Record)
    requires |x| == TailLen
    ensures |rec| == WireTailLen
  {
    [if hellfire then x[0] else x[1], x[2], x[3], Num(0), x[4], Num(0), x[5], x[6], x[7], Num(0)]
  }

  /** The fields LoadPlayer sets: under Hellfire pBattleNet is false; for a
      base save pDungMsgs2 is 0 and pOriginalCathedral true. */
  function TailFromWire(rec: Record, hellfire: bool): (x: Record)
    requires |rec| == WireTailLen
    ensures |x| == TailLen
  {
    if hellfire then [rec[0], Num(0), rec[1], rec[2], rec[4], rec[6], rec[7], rec[8]]
    else [Num(0), rec[0], rec[1], Num(1), rec[4], rec[6], rec[7], rec[8]]
  }

  function TailCodecOf(M: Layout, S: Layout, Ld: Layout, hellfire: bool): Codec
  {
    Codec(M, S, Ld,
          (a: Arg) => var x := a.r; if |x| == TailLen then TailSlots(x, hellfire) else x,
          (a: Arg) => var d := a.r; if |d| == TailLen then TailSlots(d, hellfire) else d,
          (a: Arg, b: Arg) => var rec, d := a.r, b.r; if |rec| == WireTailLen then TailFromWire(rec, hellfire) else d)
  }

  function TailCodec(hellfire: bool): Codec
  {
    TailCodecOf(Tail(), TailSave(hellfire), TailLoad(hellfire), hellfire)
  }

  lemma {:induction false} TailSlotsFit(M: Layout, S: Layout, Ld: Layout, hellfire: bool, x: Record)
    requires IsTailLayouts(M, S, Ld, hellfire) && WellFormed(M, x)
    ensures WellFormed(S, TailSlots(x, hellfire))
  {
    var rec := TailSlots(x, hellfire);
    forall k | 0 <= k < WireTailLen ensures Fits(S[k].kind, rec[k]) {
      if k == 0 {
        assert Fits(M[if hellfire then 0 else 1].kind, x[if hellfire then 0 else 1]);
      } else if k == 1 || k == 2 || k == 4 {
        assert Fits(M[k].kind, x[k]);
      } else if k >= 6 && k != 9 {
        assert Fits(M[k - 1].kind, x[k - 1]);
      }
    }
  }

  lemma {:induction false} TailCodecOfValid(M: Layout, S: Layout, Ld: Layout, hellfire: bool)
    requires IsTailLayouts(M, S, Ld, hellfire)
    ensures Valid(TailCodecOf(M, S, Ld, hellfire))
  {
    var c := TailCodecOf(M, S, Ld, hellfire);
    assert Coarsens(Ld, S) by {
      forall k | 0 <= k < WireTailLen ensures Ld[k].kind == S[k].kind || Ld[k].kind == Skip(Width(S[k].kind)) {
        if k == 2 && !hellfire {
          assert Width(S[2].kind) == 1;
        }
      }
    }
    forall x | WellFormed(c.mem, x) ensures WellFormed(c.save, c.toWire(Arg(x))) {
      TailSlotsFit(M, S, Ld, hellfire, x);
    }
  }

  lemma {:induction false} TailCodecValid(hellfire: bool)
    ensures Valid(TailCodec(hellfire))
  {
    TailShape(hellfire);
    TailCodecOfValid(Tail(), TailSave(hellfire), TailLoad(hellfire), hellfire);
  }

  /** The tail a round trip gives back: under Hellfire everything but
      pBattleNet, which is false; for a base save everything but
      pDungMsgs2, which is 0, and pOriginalCathedral, which is true. */
  function TailRestored(x: Record, hellfire: bool): (y: Record)
    requires |x| == TailLen
    ensures |y| == TailLen
  {
    if hellfire then x[1 := Num(0)] else x[0 := Num(0)][3 := Num(1)]
  }

  lemma {:induction false} TailExpectedOf(M: Layout, S: Layout, Ld: Layout, x: Record, dest: Record, hellfire: bool)
    requires IsTailLayouts(M, S, Ld, hellfire) && |x| == TailLen && |dest| == TailLen
    ensures Valid(TailCodecOf(M, S, Ld, hellfire))
    ensures Expected(TailCodecOf(M, S, Ld, hellfire), x, dest) == TailRestored(x, hellfire)
  {
    TailCodecOfValid(M, S, Ld, hellfire);
    var m := Merge(Ld, TailSlots(x, hellfire), TailSlots(dest, hellfire));
    assert !Ld[0].kind.Skip? && !Ld[1].kind.Skip? && !Ld[4].kind.Skip?;
    assert !Ld[6].kind.Skip? && !Ld[7].kind.Skip? && !Ld[8].kind.Skip?;
    assert m[0] == TailSlots(x, hellfire)[0] && m[1] == x[2] && m[4] == x[4];
    assert m[6] == x[5] && m[7] == x[6] && m[8] == x[7];
    if hellfire {
      assert !Ld[2].kind.Skip?;
      assert m[2] == x[3];
    }
  }

  lemma {:induction false} TailExpected(x: Record, dest: Record, hellfire: bool)
    requires |x| == TailLen && |dest| == TailLen
    ensures Valid(TailCodec(hellfire))
    ensures Expected(TailCodec(hellfire), x, dest) == TailRestored(x, hellfire)
  {
    TailShape(hellfire);
    TailExpectedOf(Tail(), TailSave(hellfire), TailLoad(hellfire), x, dest, hellfire);
  }

  /** A tail survives a round trip exactly when the field the version
      drops already holds the value loading gives it. */
  lemma {:induction false} TailSurvives(x: Record, hellfire: bool)
    requires |x| == TailLen
    ensures TailRestored(x, hellfire) == x <==>
            if hellfire then x[1] == Num(0) else x[0] == Num(0) && x[3] == Num(1)
  {
    if hellfire && x[1] != Num(0) {
      assert TailRestored(x, hellfire)[1] != x[1];
    }
    if !hellfire && x[0] != Num(0) {
      assert TailRestored(x, hellfire)[0] != x[0];
    }
    if !hellfire && x[3] != Num(1) {
      assert TailRestored(x, hellfire)[3] != x[3];
    }
  }

  // ---------------------------------------------------------------------
  // The whole record

  /** Where each part sits in the player. */
  const HeadAt: nat := 0
  const BlockAt: nat := 1
  const VitalsAt: nat := 2
  const BodyAt: nat := 3

  function ListAt(d: Dims): nat { BodyAt + d.invLoc }
  function GridAt(d: Dims): nat { ListAt(d) + d.invGrid }
  function BeltAt(d: Dims): nat { GridAt(d) + 1 }
  function HoldAt(d: Dims): nat { BeltAt(d) + d.belt }
  function BonusesAt(d: Dims): nat { HoldAt(d) + 1 }
  function TailAt(d: Dims): nat { HoldAt(d) + 2 }

  /** The parts in SavePlayer's order, given the codec of each kind of part:
      the head, the block part, the vitals, InvBody, InvList, the grid,
      SpdList, HoldItem, the bonuses and the tail. */
  function Parts(d: Dims, head: Codec, block: Codec, vitals: Codec, item: Codec, grid: Codec, bonuses: Codec, tail: Codec): Schema
  {
    [head, block, vitals] + Copies(item, d.invLoc) + Copies(item, d.invGrid) + [grid] +
    Copies(item, d.belt) + [item, bonuses, tail]
  }

  /** The positions of InvBody, InvList, SpdList and HoldItem. */
  predicate ItemSlot(d: Dims, i: int)
  {
    BodyAt <= i < GridAt(d) || BeltAt(d) <= i <= HoldAt(d)
  }

  /** Which codec sits at each position of a player's schema. */
  ghost predicate PartsShape(cs: Schema, d: Dims, head: Codec, block: Codec, vitals: Codec, item: Codec, grid: Codec, bonuses: Codec, tail: Codec)
  {
    |cs| == TailAt(d) + 1 &&
    cs[HeadAt] == head && cs[BlockAt] == block && cs[VitalsAt] == vitals &&
    cs[GridAt(d)] == grid && cs[BonusesAt(d)] == bonuses && cs[TailAt(d)] == tail &&
    (forall i :: ItemSlot(d, i) ==> cs[i] == item)
  }

  lemma {:induction false} PartsAt(d: Dims, head: Codec, block: Codec, vitals: Codec, item: Codec, grid: Codec, bonuses: Codec, tail: Codec)
    ensures PartsShape(Parts(d, head, block, vitals, item, grid, bonuses, tail), d, head, block, vitals, item, grid, bonuses, tail)
  {
    var a := [head, block, vitals] + Copies(item, d.invLoc) + Copies(item, d.invGrid);
    var b := Copies(item, d.belt) + [item, bonuses, tail];
    var cs := Parts(d, head, block, vitals, item, grid, bonuses, tail);
    assert cs == a + [grid] + b;
    forall i | BodyAt <= i < GridAt(d) ensures cs[i] == item {
      assert cs[i] == a[i];
      if i < ListAt(d) {
        assert a[i] == Copies(item, d.invLoc)[i - BodyAt];
      } else {
        assert a[i] == Copies(item, d.invGrid)[i - ListAt(d)];
      }
    }
    forall i | BeltAt(d) <= i <= HoldAt(d) ensures cs[i] == item {
      assert cs[i] == b[i - BeltAt(d)];
    }
    assert cs[GridAt(d)] == grid;
    assert cs[BonusesAt(d)] == b[d.belt + 1];
    assert cs[TailAt(d)] == b[d.belt + 2];
  }

  /** A schema whose every part is one of seven valid codecs is valid. */
  lemma {:induction false} PartsValid(d: Dims, head: Codec, block: Codec, vitals: Codec, item: Codec, grid: Codec, bonuses: Codec, tail: Codec)
    requires Valid(head) && Valid(block) && Valid(vitals) && Valid(item) && Valid(grid) && Valid(bonuses) && Valid(tail)
    ensures AllValid(Parts(d, head, block, vitals, item, grid, bonuses, tail))
  {
    var cs := Parts(d, head, block, vitals, item, grid, bonuses, tail);
    PartsAt(d, head, block, vitals, item, grid, bonuses, tail);
    forall i | 0 <= i < |cs| ensures Valid(cs[i]) {
      if ItemSlot(d, i) {
        assert cs[i] == item;
      }
    }
  }

  /** The layouts of a player's parts. */
  datatype Shapes = Shapes(head: Layout, block: Layout, vitals: Layout, vitalsWire: Layout, levels: nat,
                           grid: Layout, bonuses: Layout, tail: Layout, tailSave: Layout, tailLoad: Layout)

  /** The layouts of a version: the vitals of memory, with
      giNumberOfLevels entries of each visited list on file, and the
      version's tail. */
  function ShapesFor(d: Dims, hellfire: bool): Shapes
  {
    var levels := TablesFor(hellfire).levels;
    Shapes(Head(d), Block(), Vitals(NumLevels), Vitals(levels), levels, Grid(d.invGrid), Bonuses(),
           Tail(), TailSave(hellfire), TailLoad(hellfire))
  }

  /** What the proofs need of the layouts. */
  predicate IsShapes(P: Shapes, hellfire: bool)
  {
    IsBlockLayout(P.block) && IsVitalsPair(P.vitals, P.vitalsWire, P.levels) && NoSkip(P.grid) &&
    IsTailLayouts(P.tail, P.tailSave, P.tailLoad, hellfire)
  }

  lemma {:induction false} GridNoSkip(n: nat)
    ensures NoSkip(Grid(n))
  {
  }

  lemma {:induction false} ShapesHold(d: Dims, hellfire: bool)
    ensures IsShapes(ShapesFor(d, hellfire), hellfire)
  {
    BlockShape();
    VitalsPair(TablesFor(hellfire).levels);
    GridNoSkip(d.invGrid);
    TailShape(hellfire);
  }

  /** The player schema over given layouts. */
  function SchemaOf(d: Dims, P: Shapes, hellfire: bool, toBlk: nat -> nat, item: Codec): Schema
  {
    Parts(d, Plain(P.head), BlockCodecOf(P.block, toBlk), VitalsCodecOf(P.vitals, P.vitalsWire, P.levels), item, Plain(P.grid), Plain(P.bonuses),
          TailCodecOf(P.tail, P.tailSave, P.tailLoad, hellfire))
  }

  /** The player of a version: SavePlayer writes the items and the tail in
      the layout of the running game (gbIsHellfire), LoadPlayer reads them
      in the layout of the save (gbIsHellfireSaveGame); the two agree for a
      save read by the game that wrote it. toBlk is ToBlkTbl; item is the
      item codec of the same version (LoadItemData/SaveItem). */
  function PlayerSchema(d: Dims, hellfire: bool, toBlk: nat -> nat, item: Codec): Schema
  {
    SchemaOf(d, ShapesFor(d, hellfire), hellfire, toBlk, item)
  }

  lemma {:induction false} SchemaOfValid(d: Dims, P: Shapes, hellfire: bool, toBlk: nat -> nat, item: Codec)
    requires IsShapes(P, hellfire) && Valid(item)
    ensures AllValid(SchemaOf(d, P, hellfire, toBlk, item))
  {
    PlainValid(P.head);
    BlockCodecValid(P.block, toBlk);
    VitalsCodecOfValid(P.vitals, P.vitalsWire, P.levels);
    PlainValid(P.grid);
    PlainValid(P.bonuses);
    TailCodecOfValid(P.tail, P.tailSave, P.tailLoad, hellfire);
    PartsValid(d, Plain(P.head), BlockCodecOf(P.block, toBlk), VitalsCodecOf(P.vitals, P.vitalsWire, P.levels), item, Plain(P.grid), Plain(P.bonuses),
               TailCodecOf(P.tail, P.tailSave, P.tailLoad, hellfire));
  }

  lemma {:induction false} PlayerSchemaValid(d: Dims, hellfire: bool, toBlk: nat -> nat, item: Codec)
    requires Valid(item)
    ensures AllValid(PlayerSchema(d, hellfire, toBlk, item))
  {
    ShapesHold(d, hellfire);
    SchemaOfValid(d, ShapesFor(d, hellfire), hellfire, toBlk, item);
  }

  /** The last part of a player is the tail of its version. */
  lemma {:induction false} SchemaTail(d: Dims, hellfire: bool, toBlk: nat -> nat, item: Codec)
    ensures var cs := PlayerSchema(d, hellfire, toBlk, item);
            |cs| == TailAt(d) + 1 && cs[TailAt(d)] == TailCodec(hellfire) && |TailCodec(hellfire).mem| == TailLen
  {
    var P := ShapesFor(d, hellfire);
    PartsAt(d, Plain(P.head), BlockCodecOf(P.block, toBlk), VitalsCodecOf(P.vitals, P.vitalsWire, P.levels), item, Plain(P.grid), Plain(P.bonuses),
            TailCodecOf(P.tail, P.tailSave, P.tailLoad, hellfire));
    TailShape(hellfire);
  }

  /** The third part of a player is the vitals of its version. */
  lemma {:induction false} SchemaVitals(d: Dims, hellfire: bool, toBlk: nat -> nat, item: Codec)
    ensures var cs := PlayerSchema(d, hellfire, toBlk, item);
            |cs| == TailAt(d) + 1 && cs[VitalsAt] == VitalsCodec(TablesFor(hellfire).levels)
  {
    var P := ShapesFor(d, hellfire);
    PartsAt(d, Plain(P.head), BlockCodecOf(P.block, toBlk), VitalsCodecOf(P.vitals, P.vitalsWire, P.levels), item, Plain(P.grid), Plain(P.bonuses),
            TailCodecOf(P.tail, P.tailSave, P.tailLoad, hellfire));
  }

  /** Part by part, what each part's codec gives for the saved record and
      the destination. */
  ghost predicate PartsExpected(d: Dims, head: Codec, block: Codec, vitals: Codec, item: Codec, grid: Codec, bonuses: Codec, tail: Codec,
                                xs: seq<Record>, dests: seq<Record>, ys: seq<Record>)
  {
    Valid(head) && Valid(block) && Valid(vitals) && Valid(item) && Valid(grid) && Valid(bonuses) && Valid(tail) &&
    |xs| == |dests| == |ys| == TailAt(d) + 1 &&
    |xs[HeadAt]| == |dests[HeadAt]| == |head.mem| && ys[HeadAt] == Expected(head, xs[HeadAt], dests[HeadAt]) &&
    |xs[BlockAt]| == |dests[BlockAt]| == |block.mem| && ys[BlockAt] == Expected(block, xs[BlockAt], dests[BlockAt]) &&
    |xs[VitalsAt]| == |dests[VitalsAt]| == |vitals.mem| && ys[VitalsAt] == Expected(vitals, xs[VitalsAt], dests[VitalsAt]) &&
    |xs[GridAt(d)]| == |dests[GridAt(d)]| == |grid.mem| && ys[GridAt(d)] == Expected(grid, xs[GridAt(d)], dests[GridAt(d)]) &&
    |xs[BonusesAt(d)]| == |dests[BonusesAt(d)]| == |bonuses.mem| &&
    ys[BonusesAt(d)] == Expected(bonuses, xs[BonusesAt(d)], dests[BonusesAt(d)]) &&
    |xs[TailAt(d)]| == |dests[TailAt(d)]| == |tail.mem| && ys[TailAt(d)] == Expected(tail, xs[TailAt(d)], dests[TailAt(d)]) &&
    (forall i :: ItemSlot(d, i) ==> |xs[i]| == |dests[i]| == |item.mem| && ys[i] == Expected(item, xs[i], dests[i]))
  }

  /** Saving a run of parts and loading it back: part by part, what the
      part's codec gives. */
  lemma {:induction false} PartsRoundTrip(d: Dims, head: Codec, block: Codec, vitals: Codec, item: Codec, grid: Codec, bonuses: Codec, tail: Codec,
                       xs: seq<Record>, dests: seq<Record>, w: Writer)
    requires Valid(head) && Valid(block) && Valid(vitals) && Valid(item) && Valid(grid) && Valid(bonuses) && Valid(tail)
    requires AllWellFormed(Parts(d, head, block, vitals, item, grid, bonuses, tail), xs)
    requires AllSized(Parts(d, head, block, vitals, item, grid, bonuses, tail), dests)
    requires WriterOk(w) && CanWrite(w, SchemaSize(Parts(d, head, block, vitals, item, grid, bonuses, tail)))
    ensures var cs := Parts(d, head, block, vitals, item, grid, bonuses, tail);
            var w' := SaveAll(cs, xs, w);
            var (ys, r) := LoadAll(cs, dests, Reader(true, w'.buf, w.ptr));
            AllValid(cs) && PartsShape(cs, d, head, block, vitals, item, grid, bonuses, tail) &&
            r.ptr == w'.ptr == w.ptr + SchemaSize(cs) &&
            PartsExpected(d, head, block, vitals, item, grid, bonuses, tail, xs, dests, ys)
  {
    var cs := Parts(d, head, block, vitals, item, grid, bonuses, tail);
    PartsValid(d, head, block, vitals, item, grid, bonuses, tail);
    PartsAt(d, head, block, vitals, item, grid, bonuses, tail);
    assert AllSized(cs, xs);
    AllRoundTrip(cs, xs, dests, w);
    ExpectedAllAt(cs, xs, dests);
    var ys := ExpectedAll(cs, xs, dests);
    forall i | ItemSlot(d, i)
      ensures ys[i] == Expected(item, xs[i], dests[i])
    {
      assert cs[i] == item;
    }
  }

  /** What loading the parts of a saved player gives, part by part: the
      head and bonuses from the saved record where their layouts read and
      from the destination where they skip; the vitals the same way, the
      visited entries past giNumberOfLevels from the destination too; the
      grid exactly; the
      class's starting block for a _pNumToBlk of 0 (a save from before the
      field), the saved value otherwise; each item as the item codec
      restores it; the tail with its version's fix-ups. */
  ghost predicate PlayerRestored(d: Dims, P: Shapes, hellfire: bool, toBlk: nat -> nat, item: Codec,
                                 xs: seq<Record>, dests: seq<Record>, ys: seq<Record>)
  {
    |xs| == |dests| == |ys| == TailAt(d) + 1 && Valid(item) &&
    |xs[HeadAt]| == |dests[HeadAt]| == |P.head| &&
    |xs[BlockAt]| == |ys[BlockAt]| == BlockLen &&
    |xs[VitalsAt]| == |dests[VitalsAt]| == |P.vitals| &&
    |xs[BonusesAt(d)]| == |dests[BonusesAt(d)]| == |P.bonuses| &&
    |xs[TailAt(d)]| == TailLen &&
    ys[HeadAt] == Merge(P.head, xs[HeadAt], dests[HeadAt]) &&
    ys[BlockAt][ToBlkSlot] ==
      (if NumOf(xs[BlockAt][ToBlkSlot]) == 0 then Num(toBlk(NumOf(xs[BlockAt][ClassSlot]))) else xs[BlockAt][ToBlkSlot]) &&
    ys[VitalsAt] == VitalsRestored(P.vitals, xs[VitalsAt], dests[VitalsAt], P.levels) &&
    ys[GridAt(d)] == xs[GridAt(d)] &&
    ys[BonusesAt(d)] == Merge(P.bonuses, xs[BonusesAt(d)], dests[BonusesAt(d)]) &&
    ys[TailAt(d)] == TailRestored(xs[TailAt(d)], hellfire) &&
    (forall i :: ItemSlot(d, i) ==>
       |xs[i]| == |dests[i]| == |item.mem| && ys[i] == Expected(item, xs[i], dests[i]))
  }

  /** Saving a player and loading it back, part by part: the plain parts
      return every written field (the skipped addresses and padding keep the
      destination's values), the grid with _pNumInv returns exactly, a
      block chance of 0 comes back as the class default, each item comes
      back as the item codec gives it, and the tail as the version leaves
      it. The read ends where the write ended. The player layouts of every
      version satisfy IsShapes (ShapesHold). */
  lemma {:induction false} PlayerRoundTrip(d: Dims, P: Shapes, hellfire: bool, toBlk: nat -> nat, item: Codec,
                        xs: seq<Record>, dests: seq<Record>, w: Writer)
    requires IsShapes(P, hellfire) && Valid(item)
    requires AllWellFormed(SchemaOf(d, P, hellfire, toBlk, item), xs)
    requires AllSized(SchemaOf(d, P, hellfire, toBlk, item), dests)
    requires WriterOk(w) && CanWrite(w, SchemaSize(SchemaOf(d, P, hellfire, toBlk, item)))
    ensures var cs := SchemaOf(d, P, hellfire, toBlk, item);
            var w' := SaveAll(cs, xs, w);
            var (ys, r) := LoadAll(cs, dests, Reader(true, w'.buf, w.ptr));
            AllValid(cs) && r.ptr == w'.ptr == w.ptr + SchemaSize(cs) &&
            PlayerRestored(d, P, hellfire, toBlk, item, xs, dests, ys)
  {
    var head, block := Plain(P.head), BlockCodecOf(P.block, toBlk);
    var vitals := VitalsCodecOf(P.vitals, P.vitalsWire, P.levels);
    var grid, bonuses, tail := Plain(P.grid), Plain(P.bonuses), TailCodecOf(P.tail, P.tailSave, P.tailLoad, hellfire);
    PlainValid(P.head);
    BlockCodecValid(P.block, toBlk);
    VitalsCodecOfValid(P.vitals, P.vitalsWire, P.levels);
    PlainValid(P.grid);
    PlainValid(P.bonuses);
    TailCodecOfValid(P.tail, P.tailSave, P.tailLoad, hellfire);
    PartsRoundTrip(d, head, block, vitals, item, grid, bonuses, tail, xs, dests, w);
    var cs := SchemaOf(d, P, hellfire, toBlk, item);
    var w' := SaveAll(cs, xs, w);
    var ys := LoadAll(cs, dests, Reader(true, w'.buf, w.ptr)).0;
    RestoredFromParts(d, P, hellfire, toBlk, item, xs, dests, ys);
  }

  /** The parts' codecs, instantiated with the player's layouts, give what
      PlayerRestored says. */
  lemma {:induction false} RestoredFromParts(d: Dims, P: Shapes, hellfire: bool, toBlk: nat -> nat, item: Codec,
                                             xs: seq<Record>, dests: seq<Record>, ys: seq<Record>)
    requires IsShapes(P, hellfire)
    requires PartsExpected(d, Plain(P.head), BlockCodecOf(P.block, toBlk), VitalsCodecOf(P.vitals, P.vitalsWire, P.levels), item, Plain(P.grid), Plain(P.bonuses),
                           TailCodecOf(P.tail, P.tailSave, P.tailLoad, hellfire), xs, dests, ys)
    ensures PlayerRestored(d, P, hellfire, toBlk, item, xs, dests, ys)
  {
    PlainExpected(P.head, xs[HeadAt], dests[HeadAt]);
    VitalsExpected(P.vitals, P.vitalsWire, P.levels, xs[VitalsAt], dests[VitalsAt]);
    PlainExpected(P.grid, xs[GridAt(d)], dests[GridAt(d)]);
    MergeNoSkip(P.grid, xs[GridAt(d)], dests[GridAt(d)]);
    PlainExpected(P.bonuses, xs[BonusesAt(d)], dests[BonusesAt(d)]);
    BlockExpected(P.block, xs[BlockAt], dests[BlockAt], toBlk);
    TailExpectedOf(P.tail, P.tailSave, P.tailLoad, xs[TailAt(d)], dests[TailAt(d)], hellfire);
  }


  // ---------------------------------------------------------------------
  // The cursor methods

  /** LoadPlayer: the parts read in order, each into the player's old
      values. (CalcPlrItemVals, which it calls last, is not part of this
      model.) */
  method LoadPlayer(file: LoadHelper, d: Dims, hellfireSave: bool, toBlk: nat -> nat, item: Codec,
                    dests: seq<Record>) returns (ys: seq<Record>)
    requires Valid(item) && AllSized(PlayerSchema(d, hellfireSave, toBlk, item), dests)
    modifies file
    ensures AllValid(PlayerSchema(d, hellfireSave, toBlk, item))
    ensures (ys, file.State()) == LoadAll(PlayerSchema(d, hellfireSave, toBlk, item), dests, old(file.State()))
  {
    PlayerSchemaValid(d, hellfireSave, toBlk, item);
    ys := LoadRun(file, PlayerSchema(d, hellfireSave, toBlk, item), dests);
  }

  method SavePlayer(file: SaveHelper, d: Dims, hellfire: bool, toBlk: nat -> nat, item: Codec,
                    xs: seq<Record>)
    requires Valid(item) && AllSized(PlayerSchema(d, hellfire, toBlk, item), xs) && file.Valid()
    modifies file, file.buffer
    ensures AllValid(PlayerSchema(d, hellfire, toBlk, item))
    ensures file.Valid() && file.buffer == old(file.buffer)
    ensures file.State() == SaveAll(PlayerSchema(d, hellfire, toBlk, item), xs, old(file.State()))
  {
    PlayerSchemaValid(d, hellfire, toBlk, item);
    SaveRun(file, PlayerSchema(d, hellfire, toBlk, item), xs);
  }
}

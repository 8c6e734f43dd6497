/** The monster record (LoadMonster and SaveMonster in Source/loadsave.cpp),
    216 bytes. SaveMonster writes mHit and mHit2 clamped to SCHAR_MAX for
    older readers; LoadMonster skips both bytes (the values were already
    set from the monster type) and turns a light id equal to the local
    player's light into NO_LIGHT, repairing older saves. */
module Monsters {
  import opened Wire
  import opened Cursor
  import opened Layout
  import opened Codec

  /** SCHAR_MAX, the largest hit chance SaveMonster writes. */
  const HitCap: nat := 127

  /** NO_LIGHT (-1) as the byte mlid holds. */
  const NoLight: nat := 0xFF

  function MonsterMotion(): Layout
  {
    [Field(LE32), Field(LE32), Field(U8), Field(Skip(3)),  // _mMTidx, _mmode, _mgoal, alignment
     Field(LE32), Field(LE32), Field(LE32),  // _mgoalvar1, _mgoalvar2, _mgoalvar3
     Field(Skip(4)), Field(U8), Field(Skip(3)),  // unused, _pathcount, alignment
     Field(LE32), Field(LE32)]  // _mx, _my
  }

  function MonsterPosition(): Layout
  {
    [Field(LE32), Field(LE32), Field(LE32), Field(LE32),  // _mfutx, _mfuty, _moldx, _moldy
     Field(LE32), Field(LE32), Field(LE32), Field(LE32),  // _mxoff, _myoff, _mxvel, _myvel
     Field(LE32), Field(LE32), Field(U8), Field(U8)]  // _mdir, _menemy, _menemyx, _menemyy
  }

  function MonsterAnim(): Layout
  {
    [Field(Skip(2)), Field(Skip(4)), Field(LE32),  // unused, _mAnimData, _mAnimDelay
     Field(LE32), Field(LE32), Field(LE32),  // _mAnimCnt, _mAnimLen, _mAnimFrame
     Field(Skip(4)), Field(LE32), Field(LE32),  // _meflag, _mDelFlag, _mVar1
     Field(LE32), Field(LE32), Field(LE32)]  // _mVar2, _mVar3, _mVar4
  }

  function MonsterVars(): Layout
  {
    [Field(LE32), Field(LE32), Field(LE32), Field(LE32),  // _mVar5, _mVar6, _mVar7, _mVar8
     Field(LE32), Field(LE32), Field(U8), Field(U8),  // _mmaxhp, _mhitpoints, _mAi, _mint
     Field(Skip(2)), Field(LE32), Field(U8),  // alignment, _mFlags, _msquelch
     Field(Skip(3))]  // alignment
  }

  function MonsterSeeds(): Layout
  {
    [Field(Skip(4)), Field(LE32), Field(LE32),  // unused, _lastx, _lasty
     Field(LE32), Field(LE32), Field(Skip(4)),  // _mRndSeed, _mAISeed, unused
     Field(U8), Field(U8), Field(U8),  // _uniqtype, _uniqtrans, _udeadval
     Field(U8), Field(U8), Field(Skip(1))]  // mWhoHit, mLevel, alignment
  }

  function MonsterCombat(): Layout
  {
    [Field(LE16), Field(U8), Field(U8), Field(U8),  // mExp, mHit, mMinDamage, mMaxDamage
     Field(U8), Field(U8), Field(U8),  // mHit2, mMinDamage2, mMaxDamage2
     Field(U8), Field(Skip(1)), Field(LE16),  // mArmorClass, alignment, mMagicRes
     Field(Skip(2)), Field(LE32)]  // alignment, mtalkmsg
  }

  function MonsterPack(): Layout
  {
    [Field(U8), Field(U8), Field(U8), Field(U8)]  // leader, leaderflag, packsize, mlid
  }

  /** The 60 fields before mExp, 194 bytes. */
  function MonsterHead(): Layout
  {
    MonsterMotion() + MonsterPosition() + MonsterAnim() + MonsterVars() + MonsterSeeds()
  }

  /** mExp to mlid, 22 bytes. */
  function MonsterTail(): Layout
  {
    MonsterCombat() + MonsterPack()
  }

  /** The fields SaveMonster writes, in order; also the in-memory record. */
  function MonsterLayout(): Layout
  {
    MonsterHead() + MonsterTail()
  }

  const MonsterLen: nat := 76
  const Hit1Slot: nat := 61
  const Hit2Slot: nat := 64
  const MlidSlot: nat := 75

  /** What the proofs below need to know of the fields: their number and
      where mHit, mHit2 and mlid sit. */
  predicate IsMonsterLayout(C: Layout)
  {
    |C| == MonsterLen && C[Hit1Slot].kind.U8? && C[Hit2Slot].kind.U8? && C[MlidSlot].kind.U8?
  }

  /** LoadMonster's calls: the same as SaveMonster's, with the two hit
      bytes skipped. */
  function LoadOf(C: Layout): (L: Layout)
    requires |C| == MonsterLen
    ensures |L| == MonsterLen
  {
    C[Hit1Slot := C[Hit1Slot].(kind := Skip(1))][Hit2Slot := C[Hit2Slot].(kind := Skip(1))]
  }

  lemma {:induction false} MotionSize() ensures Size(MonsterMotion()) == 40 {}
  lemma {:induction false} PositionSize() ensures Size(MonsterPosition()) == 42 {}
  lemma {:induction false} AnimSize() ensures Size(MonsterAnim()) == 46 {}
  lemma {:induction false} VarsSize() ensures Size(MonsterVars()) == 36 {}
  lemma {:induction false} SeedsSize() ensures Size(MonsterSeeds()) == 30 {}
  lemma {:induction false} CombatSize() ensures Size(MonsterCombat()) == 18 {}
  lemma {:induction false} PackSize() ensures Size(MonsterPack()) == 4 {}

  lemma {:induction false} HeadShape()
    ensures |MonsterHead()| == 60 && Size(MonsterHead()) == 194
  {
    var b := MonsterMotion() + MonsterPosition() + MonsterAnim();
    var c := b + MonsterVars();
    FrontShape();
    VarsSize(); SeedsSize();
    SizeConcat(b, MonsterVars());
    SizeConcat(c, MonsterSeeds());
  }

  lemma {:induction false} FrontShape()
    ensures |MonsterMotion() + MonsterPosition() + MonsterAnim()| == 36
    ensures Size(MonsterMotion() + MonsterPosition() + MonsterAnim()) == 128
  {
    var a := MonsterMotion() + MonsterPosition();
    MotionSize(); PositionSize(); AnimSize();
    SizeConcat(MonsterMotion(), MonsterPosition());
    SizeConcat(a, MonsterAnim());
  }

  lemma {:induction false} TailShape()
    ensures |MonsterTail()| == 16 && Size(MonsterTail()) == 22
    ensures MonsterTail()[1].kind.U8? && MonsterTail()[4].kind.U8? && MonsterTail()[15].kind.U8?
  {
    var a, p := MonsterCombat(), MonsterPack();
    CombatSize(); PackSize();
    SizeConcat(a, p);
    assert a[1].kind.U8? && a[4].kind.U8? && p[3].kind.U8?;
    assert (a + p)[1] == a[1] && (a + p)[4] == a[4] && (a + p)[15] == p[3];
  }

  lemma {:induction false} TailOffsets()
    ensures Size(MonsterTail()[..1]) == 2 && Size(MonsterTail()[..4]) == 5
  {
    assert MonsterTail()[..1] == [Field(LE16)];  // mExp
    assert MonsterTail()[..4] ==
      [Field(LE16), Field(U8), Field(U8), Field(U8)];  // mExp, mHit, mMinDamage, mMaxDamage
  }

  lemma {:induction false} MonsterPositions()
    ensures IsMonsterLayout(MonsterLayout())
  {
    HeadShape();
    TailShape();
  }

  /** The record is 216 bytes; mHit is at byte 196, mHit2 at byte 199. */
  lemma {:induction false} MonsterSize()
    ensures Size(MonsterLayout()) == 216
    ensures Size(MonsterLayout()[..Hit1Slot]) == 196
    ensures Size(MonsterLayout()[..Hit2Slot]) == 199
  {
    HeadShape();
    TailShape();
    TailOffsets();
    SizeConcat(MonsterHead(), MonsterTail());
    PrefixSize(MonsterHead(), MonsterTail(), 1);
    PrefixSize(MonsterHead(), MonsterTail(), 4);
  }

  // ---------------------------------------------------------------------
  // SaveMonster

  /** `mHit < SCHAR_MAX ? mHit : SCHAR_MAX` */
  function Clamp(n: nat): (r: nat)
    ensures r <= HitCap && r <= n
    ensures n <= HitCap ==> r == n
  {
    if n < HitCap then n else HitCap
  }

  /** The values SaveMonster writes: the record with both hit chances
      clamped. */
  function Clamped(x: Record): (rec: Record)
    requires |x| == MonsterLen
    ensures |rec| == MonsterLen
  {
    x[Hit1Slot := Num(Clamp(NumOf(x[Hit1Slot])))][Hit2Slot := Num(Clamp(NumOf(x[Hit2Slot])))]
  }

  // ---------------------------------------------------------------------
  // LoadMonster

  /** The fix-up after the reads: a light id equal to the local player's
      light id (plr[myplr]._plid) becomes NO_LIGHT. */
  function FixLight(rec: Record, plid: int): (m: Record)
    requires |rec| == MonsterLen
    ensures |m| == MonsterLen
  {
    if NumOf(rec[MlidSlot]) == plid then rec[MlidSlot := Num(NoLight)] else rec
  }

  /** The monster codec over fields C, for the local player's light id. */
  function CodecOf(C: Layout, plid: int): Codec
    requires |C| == MonsterLen
  {
    Codec(C, C, LoadOf(C),
          (a: Arg) => var x := a.r; if |x| == MonsterLen then Clamped(x) else x,
          (a: Arg) => a.r,
          (a: Arg, b: Arg) => var rec, d := a.r, b.r; if |rec| == MonsterLen then FixLight(rec, plid) else d)
  }

  function MonsterCodec(plid: int): Codec
  {
    MonsterPositions();
    CodecOf(MonsterLayout(), plid)
  }

  lemma {:induction false} MonsterCodecValid(plid: int)
    ensures Valid(MonsterCodec(plid))
  {
    MonsterPositions();
    CodecOfValid(MonsterLayout(), plid);
  }

  lemma {:induction false} ClampedFits(C: Layout, x: Record)
    requires IsMonsterLayout(C) && WellFormed(C, x)
    ensures WellFormed(C, Clamped(x))
  {
    var rec := Clamped(x);
    forall k | 0 <= k < |C| ensures Fits(C[k].kind, rec[k]) {
      if k != Hit1Slot && k != Hit2Slot {
        assert rec[k] == x[k];
      }
    }
  }

  lemma {:induction false} CodecOfValid(C: Layout, plid: int)
    requires IsMonsterLayout(C)
    ensures Valid(CodecOf(C, plid))
  {
    var c := CodecOf(C, plid);
    forall x | WellFormed(c.mem, x) ensures WellFormed(c.save, c.toWire(Arg(x))) {
      ClampedFits(C, x);
    }
    forall i | 0 <= i < |C|
      ensures c.load[i].kind == C[i].kind || c.load[i].kind == Skip(Width(C[i].kind))
    {
    }
  }

  // ---------------------------------------------------------------------
  // What a save-and-load round trip gives back

  /** Slot by slot, what loading a saved monster gives: both hit chances
      are the destination's (the reads skip them), every other skipped slot
      too, mlid is NO_LIGHT when it equals the local player's light id and
      is kept otherwise, and every other field comes back as saved. */
  lemma {:induction false} ExpectedSlots(C: Layout, x: Record, dest: Record, plid: int)
    requires IsMonsterLayout(C) && WellFormed(C, x) && |dest| == MonsterLen
    ensures Valid(CodecOf(C, plid))
    ensures var res := Expected(CodecOf(C, plid), x, dest);
            |res| == MonsterLen &&
            (forall k :: 0 <= k < MonsterLen && k != Hit1Slot && k != Hit2Slot && k != MlidSlot ==>
               res[k] == if C[k].kind.Skip? then dest[k] else x[k]) &&
            res[Hit1Slot] == dest[Hit1Slot] && res[Hit2Slot] == dest[Hit2Slot] &&
            res[MlidSlot] == (if NumOf(x[MlidSlot]) == plid then Num(NoLight) else x[MlidSlot])
  {
    CodecOfValid(C, plid);
    var c := CodecOf(C, plid);
    var wire := Clamped(x);
    var L := LoadOf(C);
    var m := Merge(L, wire, dest);
    assert c.toWire(Arg(x)) == wire;
    assert Expected(c, x, dest) == FixLight(m, plid);
    assert m[MlidSlot] == x[MlidSlot];
    forall k | 0 <= k < MonsterLen && k != Hit1Slot && k != Hit2Slot && k != MlidSlot
      ensures m[k] == if C[k].kind.Skip? then dest[k] else x[k]
    {
      assert L[k] == C[k];
    }
  }

  /** The monster a round trip restores into dest. */
  function Restored(C: Layout, x: Record, dest: Record, plid: int): (res: Record)
    requires |C| == MonsterLen && |x| == MonsterLen && |dest| == MonsterLen
    ensures |res| == MonsterLen
  {
    FixLight(Merge(LoadOf(C), x, dest), plid)
  }

  lemma {:induction false} ExpectedIsRestored(C: Layout, x: Record, dest: Record, plid: int)
    requires IsMonsterLayout(C) && WellFormed(C, x) && |dest| == MonsterLen
    ensures Valid(CodecOf(C, plid))
    ensures Expected(CodecOf(C, plid), x, dest) == Restored(C, x, dest, plid)
  {
    ExpectedSlots(C, x, dest, plid);
    var res := Expected(CodecOf(C, plid), x, dest);
    var r := Restored(C, x, dest, plid);
    var L := LoadOf(C);
    forall k | 0 <= k < MonsterLen ensures res[k] == r[k] {
      if k != Hit1Slot && k != Hit2Slot && k != MlidSlot {
        assert L[k] == C[k];
      }
    }
  }

  lemma {:induction false} RoundTripOf(C: Layout, x: Record, dest: Record, plid: int, w: Writer)
    requires IsMonsterLayout(C) && WellFormed(C, x) && |dest| == MonsterLen
    requires WriterOk(w) && CanWrite(w, Size(C))
    ensures Valid(CodecOf(C, plid))
    ensures RoundTrips(CodecOf(C, plid), x, dest, w, Restored(C, x, dest, plid), Size(C))
  {
    ExpectedIsRestored(C, x, dest, plid);
    CodecRoundTripTo(CodecOf(C, plid), x, dest, w, Restored(C, x, dest, plid), Size(C));
  }

  /** Saving a monster and loading it back into dest consumes 216 bytes
      and gives the monster with dest's hit chances and the light id
      repaired. */
  lemma {:induction false} MonsterRoundTrip(x: Record, dest: Record, plid: int, w: Writer)
    requires WellFormed(MonsterLayout(), x) && |dest| == |MonsterLayout()|
    requires WriterOk(w) && CanWrite(w, 216)
    ensures RoundTrips(MonsterCodec(plid), x, dest, w, Restored(MonsterLayout(), x, dest, plid), 216)
  {
    MonsterPositions();
    MonsterSize();
    RoundTripOf(MonsterLayout(), x, dest, plid, w);
  }

  /** The bytes SaveMonster writes for the hit chances hold the clamped
      values, whatever the record holds. */
  lemma {:induction false} SavedHitBytes(C: Layout, x: Record, plid: int, w: Writer)
    requires IsMonsterLayout(C) && WellFormed(C, x) && WriterOk(w) && CanWrite(w, Size(C))
    ensures Valid(CodecOf(C, plid))
    ensures var b := Save(CodecOf(C, plid), x, w).buf;
            var p1 := w.ptr + Size(C[..Hit1Slot]);
            var p2 := w.ptr + Size(C[..Hit2Slot]);
            p1 < |b| && p2 < |b| &&
            b[p1] as nat == Clamp(NumOf(x[Hit1Slot])) && b[p2] as nat == Clamp(NumOf(x[Hit2Slot]))
  {
    CodecOfValid(C, plid);
    var wire := Clamped(x);
    assert Save(CodecOf(C, plid), x, w) == EncodeFields(C, wire, w);
    assert NumOf(wire[Hit1Slot]) == Clamp(NumOf(x[Hit1Slot])) && NumOf(wire[Hit2Slot]) == Clamp(NumOf(x[Hit2Slot]));
    ClampedFits(C, x);
    var b := EncodeFields(C, wire, w).buf;
    EncodedByte(C, wire, w, Hit1Slot);
    assert b[w.ptr + Size(C[..Hit1Slot])] as nat == Clamp(NumOf(x[Hit1Slot]));
    EncodedByte(C, wire, w, Hit2Slot);
    assert b[w.ptr + Size(C[..Hit2Slot])] as nat == Clamp(NumOf(x[Hit2Slot]));
  }

  // ---------------------------------------------------------------------
  // The cursor methods, call for call

  method LoadMonster(file: LoadHelper, dest: Record, plid: int) returns (x: Record)
    requires |dest| == |MonsterLayout()|
    modifies file
    ensures Valid(MonsterCodec(plid))
    ensures (x, file.State()) == Load(MonsterCodec(plid), dest, old(file.State()))
  {
    MonsterPositions();
    x := LoadMonsterWith(file, MonsterLayout(), dest, plid);
  }

  /** LoadMonster's reads and the light repair over fields C. */
  method LoadMonsterWith(file: LoadHelper, C: Layout, dest: Record, plid: int) returns (x: Record)
    requires IsMonsterLayout(C) && |dest| == MonsterLen
    modifies file
    ensures Valid(CodecOf(C, plid))
    ensures (x, file.State()) == Load(CodecOf(C, plid), dest, old(file.State()))
  {
    CodecOfValid(C, plid);
    x := LoadFields(file, LoadOf(C), dest);
    if NumOf(x[MlidSlot]) == plid {
      x := x[MlidSlot := Num(NoLight)];
    }
  }

  method SaveMonster(file: SaveHelper, x: Record, ghost plid: int)
    requires |x| == |MonsterLayout()| && file.Valid()
    modifies file, file.buffer
    ensures Valid(MonsterCodec(plid))
    ensures file.Valid() && file.buffer == old(file.buffer)
    ensures file.State() == Save(MonsterCodec(plid), x, old(file.State()))
  {
    MonsterPositions();
    SaveMonsterWith(file, MonsterLayout(), x, plid);
  }

  /** SaveMonster's clamps and writes over fields C. */
  method SaveMonsterWith(file: SaveHelper, C: Layout, x: Record, ghost plid: int)
    requires IsMonsterLayout(C) && |x| == MonsterLen && file.Valid()
    modifies file, file.buffer
    ensures Valid(CodecOf(C, plid))
    ensures file.Valid() && file.buffer == old(file.buffer)
    ensures file.State() == Save(CodecOf(C, plid), x, old(file.State()))
  {
    CodecOfValid(C, plid);
    var hit := Clamp(NumOf(x[Hit1Slot]));
    var hit2 := Clamp(NumOf(x[Hit2Slot]));
    SaveFields(file, C, x[Hit1Slot := Num(hit)][Hit2Slot := Num(hit2)]);
  }
}

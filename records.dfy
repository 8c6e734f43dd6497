/** The entities whose Load function reads back, call for call, what the
    Save function wrote: missiles (LoadMissile/SaveMissile), objects
    (LoadObject/SaveObject), light and vision sources (LoadLighting and
    LoadVision share one layout, as do SaveLighting and SaveVision) and town
    portals (LoadPortal/SavePortal), in Source/loadsave.cpp. Each is a plain
    codec: a saved record comes back with every written field, and the
    address and padding slots the Load function skips keep what the
    destination held. */
module Records {
  import opened Wire
  import opened Cursor
  import opened Layout
  import opened Codec

  // ---------------------------------------------------------------------
  // MissileStruct, 176 bytes

  function MissileMotion(): Layout
  {
    [Field(LE32), Field(LE32), Field(LE32), Field(LE32),  // _mitype, _mix, _miy, _mixoff
     Field(LE32), Field(LE32), Field(LE32), Field(LE32),  // _miyoff, _mixvel, _miyvel, _misx
     Field(LE32), Field(LE32), Field(LE32), Field(LE32)]  // _misy, _mitxoff, _mityoff, _mimfnum
  }

  function MissileAnim(): Layout
  {
    [Field(LE32), Field(Bool32), Field(U8),  // _mispllvl, _miDelFlag, _miAnimType
     Field(Skip(3)), Field(LE32), Field(Skip(4)),  // alignment, _miAnimFlags, _miAnimData
     Field(LE32), Field(LE32), Field(LE32),  // _miAnimDelay, _miAnimLen, _miAnimWidth
     Field(LE32), Field(LE32), Field(LE32)]  // _miAnimWidth2, _miAnimCnt, _miAnimAdd
  }

  function MissileFlags(): Layout
  {
    [Field(LE32), Field(Bool32), Field(Bool32),  // _miAnimFrame, _miDrawFlag, _miLightFlag
     Field(Bool32), Field(LE32), Field(LE32),  // _miPreFlag, _miUniqTrans, _mirange
     Field(LE32), Field(LE32), Field(LE32),  // _misource, _micaster, _midam
     Field(Bool32), Field(LE32), Field(LE32)]  // _miHitFlag, _midist, _mlid
  }

  function MissileVars(): Layout
  {
    [Field(LE32), Field(LE32), Field(LE32), Field(LE32),  // _mirnd, _miVar1, _miVar2, _miVar3
     Field(LE32), Field(LE32), Field(LE32), Field(LE32),  // _miVar4, _miVar5, _miVar6, _miVar7
     Field(LE32)]  // _miVar8
  }

  function MissileLayout(): Layout
  {
    MissileMotion() + MissileAnim() + MissileFlags() + MissileVars()
  }

  function MissileCodec(): Codec
  {
    Plain(MissileLayout())
  }

  lemma {:induction false} MissileMotionSize() ensures Size(MissileMotion()) == 48 {}
  lemma {:induction false} MissileAnimSize() ensures Size(MissileAnim()) == 44 {}
  lemma {:induction false} MissileFlagsSize() ensures Size(MissileFlags()) == 48 {}
  lemma {:induction false} MissileVarsSize() ensures Size(MissileVars()) == 36 {}

  lemma {:induction false} MissileSize()
    ensures Size(MissileLayout()) == 176
  {
    MissileMotionSize();
    MissileAnimSize();
    MissileFlagsSize();
    MissileVarsSize();
    SizeConcat(MissileMotion(), MissileAnim());
    SizeConcat(MissileMotion() + MissileAnim(), MissileFlags());
    SizeConcat(MissileMotion() + MissileAnim() + MissileFlags(), MissileVars());
  }

  // ---------------------------------------------------------------------
  // ObjectStruct, 120 bytes

  function ObjectAnim(): Layout
  {
    [Field(LE32), Field(LE32), Field(LE32), Field(LE32),  // _otype, _ox, _oy, _oLight
     Field(LE32), Field(Skip(4)), Field(LE32),  // _oAnimFlag, _oAnimData, _oAnimDelay
     Field(LE32), Field(LE32), Field(LE32),  // _oAnimCnt, _oAnimLen, _oAnimFrame
     Field(LE32), Field(LE32)]  // _oAnimWidth, _oAnimWidth2
  }

  function ObjectFlags(): Layout
  {
    [Field(LE32), Field(U8), Field(Skip(3)),  // _oDelFlag, _oBreak, alignment
     Field(LE32), Field(LE32), Field(U8),  // _oSolidFlag, _oMissFlag, _oSelFlag
     Field(Skip(3)), Field(LE32), Field(LE32),  // alignment, _oPreFlag, _oTrapFlag
     Field(LE32), Field(LE32), Field(LE32)]  // _oDoorFlag, _olid, _oRndSeed
  }

  function ObjectVars(): Layout
  {
    [Field(LE32), Field(LE32), Field(LE32), Field(LE32),  // _oVar1, _oVar2, _oVar3, _oVar4
     Field(LE32), Field(LE32), Field(LE32), Field(LE32)]  // _oVar5, _oVar6, _oVar7, _oVar8
  }

  function ObjectLayout(): Layout
  {
    ObjectAnim() + ObjectFlags() + ObjectVars()
  }

  function ObjectCodec(): Codec
  {
    Plain(ObjectLayout())
  }

  lemma {:induction false} ObjectAnimSize() ensures Size(ObjectAnim()) == 48 {}
  lemma {:induction false} ObjectFlagsSize() ensures Size(ObjectFlags()) == 40 {}
  lemma {:induction false} ObjectVarsSize() ensures Size(ObjectVars()) == 32 {}

  lemma {:induction false} ObjectSize()
    ensures Size(ObjectLayout()) == 120
  {
    ObjectAnimSize();
    ObjectFlagsSize();
    ObjectVarsSize();
    SizeConcat(ObjectAnim(), ObjectFlags());
    SizeConcat(ObjectAnim() + ObjectFlags(), ObjectVars());
  }

  // ---------------------------------------------------------------------
  // LightListStruct (LightList and VisionList), 52 bytes

  function LightLayout(): Layout
  {
    [Field(LE32), Field(LE32), Field(LE32), Field(LE32),  // _lx, _ly, _lradius, _lid
     Field(LE32), Field(LE32), Field(Skip(4)), Field(LE32),  // _ldel, _lunflag, unused, _lunx
     Field(LE32), Field(LE32), Field(LE32), Field(LE32),  // _luny, _lunr, _xoff, _yoff
     Field(LE32)]  // _lflags
  }

  function LightCodec(): Codec
  {
    Plain(LightLayout())
  }

  lemma {:induction false} LightSize()
    ensures Size(LightLayout()) == 52
  {
  }

  // ---------------------------------------------------------------------
  // PortalStruct, 24 bytes

  function PortalLayout(): Layout
  {
    [Field(LE32), Field(LE32), Field(LE32), Field(LE32),  // open, x, y, level
     Field(LE32), Field(LE32)]  // ltype, setlvl
  }

  function PortalCodec(): Codec
  {
    Plain(PortalLayout())
  }

  // ---------------------------------------------------------------------
  // Round trips

  /** A plain record saved and read back: every written field returns,
      every skipped slot keeps the destination's value, and the read ends
      where the write ended. */
  lemma {:induction false} PlainRoundTrip(L: Layout, x: Record, dest: Record, w: Writer)
    requires WellFormed(L, x) && |dest| == |L|
    requires WriterOk(w) && CanWrite(w, Size(L))
    ensures RoundTrips(Plain(L), x, dest, w, Merge(L, x, dest), Size(L))
  {
    PlainValid(L);
    PlainExpected(L, x, dest);
    CodecRoundTripTo(Plain(L), x, dest, w, Merge(L, x, dest), Size(L));
  }

  /** A record whose layout skips nothing comes back exactly. */
  lemma {:induction false} ExactRoundTrip(L: Layout, x: Record, dest: Record, w: Writer)
    requires WellFormed(L, x) && |dest| == |L| && NoSkip(L)
    requires WriterOk(w) && CanWrite(w, Size(L))
    ensures RoundTrips(Plain(L), x, dest, w, x, Size(L))
  {
    PlainRoundTrip(L, x, dest, w);
    MergeNoSkip(L, x, dest);
  }

  /** A portal skips nothing: it comes back exactly, in 24 bytes. */
  lemma {:induction false} PortalShape()
    ensures NoSkip(PortalLayout()) && Size(PortalLayout()) == 24
  {
  }

  // ---------------------------------------------------------------------
  // The cursor methods

  method LoadMissile(file: LoadHelper, dest: Record) returns (x: Record)
    requires |dest| == |MissileLayout()|
    modifies file
    ensures Valid(MissileCodec())
    ensures (x, file.State()) == Load(MissileCodec(), dest, old(file.State()))
  {
    PlainValid(MissileLayout());
    x := LoadFields(file, MissileLayout(), dest);
  }

  method SaveMissile(file: SaveHelper, x: Record)
    requires |x| == |MissileLayout()| && file.Valid()
    modifies file, file.buffer
    ensures Valid(MissileCodec())
    ensures file.Valid() && file.buffer == old(file.buffer)
    ensures file.State() == Save(MissileCodec(), x, old(file.State()))
  {
    PlainValid(MissileLayout());
    SaveFields(file, MissileLayout(), x);
  }

  method LoadObject(file: LoadHelper, dest: Record) returns (x: Record)
    requires |dest| == |ObjectLayout()|
    modifies file
    ensures Valid(ObjectCodec())
    ensures (x, file.State()) == Load(ObjectCodec(), dest, old(file.State()))
  {
    PlainValid(ObjectLayout());
    x := LoadFields(file, ObjectLayout(), dest);
  }

  method SaveObject(file: SaveHelper, x: Record)
    requires |x| == |ObjectLayout()| && file.Valid()
    modifies file, file.buffer
    ensures Valid(ObjectCodec())
    ensures file.Valid() && file.buffer == old(file.buffer)
    ensures file.State() == Save(ObjectCodec(), x, old(file.State()))
  {
    PlainValid(ObjectLayout());
    SaveFields(file, ObjectLayout(), x);
  }

  /** LoadLighting and LoadVision: the same calls into LightList[i] or
      VisionList[i]. */
  method LoadLight(file: LoadHelper, dest: Record) returns (x: Record)
    requires |dest| == |LightLayout()|
    modifies file
    ensures Valid(LightCodec())
    ensures (x, file.State()) == Load(LightCodec(), dest, old(file.State()))
  {
    PlainValid(LightLayout());
    x := LoadFields(file, LightLayout(), dest);
  }

  /** SaveLighting and SaveVision. */
  method SaveLight(file: SaveHelper, x: Record)
    requires |x| == |LightLayout()| && file.Valid()
    modifies file, file.buffer
    ensures Valid(LightCodec())
    ensures file.Valid() && file.buffer == old(file.buffer)
    ensures file.State() == Save(LightCodec(), x, old(file.State()))
  {
    PlainValid(LightLayout());
    SaveFields(file, LightLayout(), x);
  }

  method LoadPortal(file: LoadHelper, dest: Record) returns (x: Record)
    requires |dest| == |PortalLayout()|
    modifies file
    ensures Valid(PortalCodec())
    ensures (x, file.State()) == Load(PortalCodec(), dest, old(file.State()))
  {
    PlainValid(PortalLayout());
    x := LoadFields(file, PortalLayout(), dest);
  }

  method SavePortal(file: SaveHelper, x: Record)
    requires |x| == |PortalLayout()| && file.Valid()
    modifies file, file.buffer
    ensures Valid(PortalCodec())
    ensures file.Valid() && file.buffer == old(file.buffer)
    ensures file.State() == Save(PortalCodec(), x, old(file.State()))
  {
    PlainValid(PortalLayout());
    SaveFields(file, PortalLayout(), x);
  }
}

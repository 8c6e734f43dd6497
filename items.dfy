/** The item record (LoadItemData and SaveItem in Source/loadsave.cpp):
    368 bytes in the base game's layout, 372 in Hellfire's, which appends
    _iDamAcFlags. The item index IDidx is kept in Hellfire numbering in
    memory and translated when the base layout is written or read. */
module Items {
  import opened Wire
  import opened Cursor
  import opened Layout
  import opened Codec
  import opened Remap

  /** The item type of an empty slot. */
  const ITYPE_NONE: int := -1

  function ItemHead(): Layout
  {
    [Field(LE32), Field(LE16), Field(Skip(2)),  // _iSeed, _iCreateInfo, alignment
     Field(LE32), Field(LE32), Field(LE32),  // _itype, _ix, _iy
     Field(Bool32), Field(Skip(4)), Field(LE32),  // _iAnimFlag, _iAnimData, _iAnimLen
     Field(LE32), Field(LE32), Field(LE32)]  // _iAnimFrame, _iAnimWidth, _iAnimWidth2
  }

  function ItemNames(): Layout
  {
    [Field(Skip(4)), Field(U8), Field(Skip(3)),  // unused, _iSelFlag, alignment
     Field(Bool32), Field(Bool32), Field(U8),  // _iPostDraw, _iIdentified, _iMagical
     Field(Bytes(64)), Field(Bytes(64)), Field(U8),  // _iName, _iIName, _iLoc
     Field(U8), Field(Skip(1))]  // _iClass, alignment
  }

  function ItemStats(): Layout
  {
    [Field(LE32), Field(LE32), Field(LE32),  // _iCurs, _ivalue, _iIvalue
     Field(LE32), Field(LE32), Field(LE32),  // _iMinDam, _iMaxDam, _iAC
     Field(LE32), Field(LE32), Field(LE32),  // _iFlags, _iMiscId, _iSpell
     Field(LE32), Field(LE32), Field(LE32)]  // _iCharges, _iMaxCharges, _iDurability
  }

  function ItemBonuses(): Layout
  {
    [Field(LE32), Field(LE32), Field(LE32),  // _iMaxDur, _iPLDam, _iPLToHit
     Field(LE32), Field(LE32), Field(LE32),  // _iPLAC, _iPLStr, _iPLMag
     Field(LE32), Field(LE32), Field(LE32),  // _iPLDex, _iPLVit, _iPLFR
     Field(LE32), Field(LE32), Field(LE32)]  // _iPLLR, _iPLMR, _iPLMana
  }

  function ItemDamage(): Layout
  {
    [Field(LE32), Field(LE32), Field(LE32),  // _iPLHP, _iPLDamMod, _iPLGetHit
     Field(LE32), Field(U8), Field(U8),  // _iPLLight, _iSplLvlAdd, _iRequest
     Field(Skip(2)), Field(LE32), Field(LE32),  // alignment, _iUid, _iFMinDam
     Field(LE32), Field(LE32), Field(LE32)]  // _iFMaxDam, _iLMinDam, _iLMaxDam
  }

  function ItemPowers(): Layout
  {
    [Field(LE32), Field(U8), Field(U8),  // _iPLEnAc, _iPrePower, _iSufPower
     Field(Skip(2)), Field(LE32), Field(LE32),  // alignment, _iVAdd1, _iVMult1
     Field(LE32), Field(LE32), Field(U8),  // _iVAdd2, _iVMult2, _iMinStr
     Field(U8), Field(U8), Field(Skip(1))]  // _iMinMag, _iMinDex, alignment
  }

  function ItemTail(): Layout
  {
    [Field(Bool32), Field(LE32), Field(Skip(4))]  // _iStatFlag, IDidx, unused
  }

  /** The fields both versions write, in order. */
  function ItemCommon(): Layout
  {
    ItemHead() + ItemNames() + ItemStats() + ItemBonuses() + ItemDamage() + ItemPowers() + ItemTail()
  }

  function DamAcField(): Field
  {
    Field(LE32)  // _iDamAcFlags
  }

  /** An ItemStruct in memory: the common fields and _iDamAcFlags. */
  function ItemMemory(): Layout
  {
    ItemCommon() + [DamAcField()]
  }

  /** The record on the wire for a version (true: Hellfire), given the
      common fields. */
  function WireOf(C: Layout, hellfire: bool): Layout
  {
    if hellfire then C + [DamAcField()] else C
  }

  function ItemWire(hellfire: bool): Layout
  {
    WireOf(ItemCommon(), hellfire)
  }

  const CommonLen: nat := 74
  const TypeSlot: nat := 3
  const IdxSlot: nat := 72

  /** What the proofs below need to know of the common fields: their
      number and where _itype and IDidx sit. */
  predicate IsItemLayout(C: Layout)
  {
    |C| == CommonLen && C[TypeSlot].kind.LE32? && C[IdxSlot].kind.LE32?
  }

  lemma {:induction false} ItemShape()
    ensures IsItemLayout(ItemCommon()) && |ItemMemory()| == CommonLen + 1
    ensures Size(ItemCommon()) == 368
  {
    ItemPositions();
    CommonSize();
  }

  lemma {:induction false} ItemPositions()
    ensures IsItemLayout(ItemCommon()) && |ItemMemory()| == CommonLen + 1
  {
    var e := ItemHead() + ItemNames() + ItemStats() + ItemBonuses() + ItemDamage() + ItemPowers();
    assert ItemCommon() == e + ItemTail();
    assert ItemCommon()[TypeSlot] == ItemHead()[TypeSlot];
    assert ItemCommon()[IdxSlot] == ItemTail()[1];
  }

  lemma {:induction false} CommonSize()
    ensures Size(ItemCommon()) == 368
  {
    var a := ItemHead() + ItemNames();
    var b := a + ItemStats();
    var c := b + ItemBonuses();
    var d := c + ItemDamage();
    var e := d + ItemPowers();
    assert ItemCommon() == e + ItemTail();
    GroupSizes();
    SizeConcat(ItemHead(), ItemNames());
    SizeConcat(a, ItemStats());
    SizeConcat(b, ItemBonuses());
    SizeConcat(c, ItemDamage());
    SizeConcat(d, ItemPowers());
    SizeConcat(e, ItemTail());
  }

  lemma {:induction false} HeadSize() ensures Size(ItemHead()) == 44 {}
  lemma {:induction false} NamesSize() ensures Size(ItemNames()) == 148 {}
  lemma {:induction false} StatsSize() ensures Size(ItemStats()) == 48 {}
  lemma {:induction false} BonusesSize() ensures Size(ItemBonuses()) == 48 {}
  lemma {:induction false} DamageSize() ensures Size(ItemDamage()) == 40 {}
  lemma {:induction false} PowersSize() ensures Size(ItemPowers()) == 28 {}
  lemma {:induction false} TailSize() ensures Size(ItemTail()) == 12 {}

  lemma {:induction false} GroupSizes()
    ensures Size(ItemHead()) == 44 && Size(ItemNames()) == 148 && Size(ItemStats()) == 48
    ensures Size(ItemBonuses()) == 48 && Size(ItemDamage()) == 40 && Size(ItemPowers()) == 28
    ensures Size(ItemTail()) == 12
  {
    HeadSize(); NamesSize(); StatsSize(); BonusesSize(); DamageSize(); PowersSize(); TailSize();
  }


  /** The record is 368 bytes in the base layout and 372 in Hellfire's. */
  lemma {:induction false} ItemWireSize(hellfire: bool)
    ensures Size(ItemWire(hellfire)) == if hellfire then 372 else 368
  {
    ItemShape();
    SizeConcat(ItemCommon(), [DamAcField()]);
  }

  lemma {:induction false} BoundLE32()
    ensures Bound(LE32) == Two32
  {
  }

  // ---------------------------------------------------------------------
  // SaveItem

  /** The index SaveItem writes before the -1 check: IDidx itself for
      Hellfire, its base-game number otherwise. */
  function SentIndex(idx: int, hellfire: bool): int
  {
    if hellfire then idx else ToDiablo(idx)
  }

  /** The values SaveItem writes: the index translated for the version, and
      an index with no counterpart written as 0 with type ITYPE_NONE;
      _iDamAcFlags only for Hellfire. */
  function ItemToWire(it: Record, hellfire: bool): (rec: Record)
    requires |it| == CommonLen + 1
    ensures |rec| == if hellfire then CommonLen + 1 else CommonLen
  {
    var sent := SentIndex(Signed32(NumOf(it[IdxSlot])), hellfire);
    var typ := if sent == Unrepresentable then Num(Pattern32(ITYPE_NONE)) else it[TypeSlot];
    var idx := if sent == Unrepresentable then 0 else Pattern32(sent);
    var common := it[..CommonLen][TypeSlot := typ][IdxSlot := Num(idx)];
    if hellfire then common + [it[CommonLen]] else common
  }

  // ---------------------------------------------------------------------
  // LoadItemData

  /** What LoadItemData does after the reads: a base save's index is
      translated to Hellfire numbering, _iDamAcFlags is 0 unless the save is
      Hellfire, and an index the game does not offer becomes 0 with type
      ITYPE_NONE. */
  function ItemFromWire(rec: Record, hellfireSave: bool, avail: int -> bool): (it: Record)
    requires |rec| >= CommonLen && (hellfireSave ==> |rec| > CommonLen)
    ensures |it| == CommonLen + 1
  {
    var read := Signed32(NumOf(rec[IdxSlot]));
    var idx := if hellfireSave then read else FromDiablo(read);
    var damAc := if hellfireSave then rec[CommonLen] else Num(0);
    var common :=
      if avail(idx) then rec[..CommonLen][IdxSlot := Num(Pattern32(idx))]
      else rec[..CommonLen][TypeSlot := Num(Pattern32(ITYPE_NONE))][IdxSlot := Num(0)];
    common + [damAc]
  }

  /** The destination slots the reads of a version land in. */
  function ItemView(dest: Record, hellfire: bool): Record
    requires |dest| == CommonLen + 1
  {
    if hellfire then dest else dest[..CommonLen]
  }

  /** The item codec over common fields C, for a version (the same on both
      sides) and the game's item-availability test (IsItemAvailable). */
  function CodecOf(C: Layout, hellfire: bool, avail: int -> bool): Codec
  {
    Codec(C + [DamAcField()], WireOf(C, hellfire), WireOf(C, hellfire),
          (a: Arg) => var x := a.r; if |x| == CommonLen + 1 then ItemToWire(x, hellfire) else x,
          (a: Arg) => var d := a.r; if |d| == CommonLen + 1 then ItemView(d, hellfire) else d,
          (a: Arg, b: Arg) => var rec, d := a.r, b.r;
            if |rec| == (if hellfire then CommonLen + 1 else CommonLen) then ItemFromWire(rec, hellfire, avail) else d)
  }

  function ItemCodec(hellfire: bool, avail: int -> bool): Codec
  {
    CodecOf(ItemCommon(), hellfire, avail)
  }

  lemma {:induction false} ToWireFits(C: Layout, it: Record, hellfire: bool)
    requires IsItemLayout(C) && WellFormed(C + [DamAcField()], it)
    ensures WellFormed(WireOf(C, hellfire), ItemToWire(it, hellfire))
  {
    BoundLE32();
    var rec := ItemToWire(it, hellfire);
    var L := WireOf(C, hellfire);
    var M := C + [DamAcField()];
    forall k | 0 <= k < |L| ensures Fits(L[k].kind, rec[k]) {
      assert L[k] == M[k];
      if k != TypeSlot && k != IdxSlot {
        assert rec[k] == it[k];
      }
    }
  }

  lemma {:induction false} CodecOfValid(C: Layout, hellfire: bool, avail: int -> bool)
    requires IsItemLayout(C)
    ensures Valid(CodecOf(C, hellfire, avail))
  {
    var c := CodecOf(C, hellfire, avail);
    forall x | WellFormed(c.mem, x) ensures WellFormed(c.save, c.toWire(Arg(x))) {
      ToWireFits(C, x, hellfire);
    }
  }

  lemma {:induction false} ItemCodecValid(hellfire: bool, avail: int -> bool)
    ensures Valid(ItemCodec(hellfire, avail))
  {
    ItemShape();
    CodecOfValid(ItemCommon(), hellfire, avail);
  }

  // ---------------------------------------------------------------------
  // What a save-and-load round trip gives back

  /** The index a round trip ends with: the saved number translated back
      for a base save, or -1 when the save had to drop it. */
  function ReturnedIndex(idx: int, hellfire: bool): int
  {
    var sent := SentIndex(idx, hellfire);
    if sent == Unrepresentable then Unrepresentable
    else if hellfire then sent
    else FromDiablo(sent)
  }

  /** Slot by slot, what loading a saved item gives: every written field
      from the item, every skipped one from the destination; the index and
      type survive exactly when the index was representable and the
      returned index is available, and are 0 and ITYPE_NONE otherwise;
      _iDamAcFlags survives only in the Hellfire layout. */
  lemma {:induction false} ExpectedSlots(C: Layout, it: Record, dest: Record, hellfire: bool, avail: int -> bool)
    requires IsItemLayout(C) && WellFormed(C + [DamAcField()], it) && |dest| == CommonLen + 1
    ensures Valid(CodecOf(C, hellfire, avail))
    ensures var res := Expected(CodecOf(C, hellfire, avail), it, dest);
            var back := ReturnedIndex(Signed32(NumOf(it[IdxSlot])), hellfire);
            var kept := back != Unrepresentable && avail(back);
            |res| == CommonLen + 1 &&
            (forall k :: 0 <= k < CommonLen && k != TypeSlot && k != IdxSlot ==>
               res[k] == if C[k].kind.Skip? then dest[k] else it[k]) &&
            res[TypeSlot] == (if kept then it[TypeSlot] else Num(Pattern32(ITYPE_NONE))) &&
            res[IdxSlot] == (if kept then Num(Pattern32(back)) else Num(0)) &&
            res[CommonLen] == (if hellfire then it[CommonLen] else Num(0))
  {
    CodecOfValid(C, hellfire, avail);
    var c := CodecOf(C, hellfire, avail);
    var wire := ItemToWire(it, hellfire);
    var L := WireOf(C, hellfire);
    var m := Merge(L, wire, ItemView(dest, hellfire));
    assert c.toWire(Arg(it)) == wire;
    assert Expected(c, it, dest) == ItemFromWire(m, hellfire, avail);
    var idx := Signed32(NumOf(it[IdxSlot]));
    var sent := SentIndex(idx, hellfire);
    assert L[IdxSlot] == C[IdxSlot] && L[TypeSlot] == C[TypeSlot];
    assert m[IdxSlot] == wire[IdxSlot];
    assert m[TypeSlot] == wire[TypeSlot];
    if sent != Unrepresentable {
      SignedPattern(sent);
    }
    forall k | 0 <= k < CommonLen && k != TypeSlot && k != IdxSlot
      ensures m[k] == if C[k].kind.Skip? then dest[k] else it[k]
    {
      assert L[k] == C[k];
    }
    if hellfire {
      assert L[CommonLen] == DamAcField();
    }
  }

  /** A well-formed item's index, read as a signed int and stored back in
      32 bits, is the index slot itself. */
  lemma {:induction false} IndexSurvives(C: Layout, it: Record)
    requires IsItemLayout(C) && WellFormed(C + [DamAcField()], it)
    ensures it[IdxSlot] == Num(Pattern32(Signed32(NumOf(it[IdxSlot]))))
  {
    var M := C + [DamAcField()];
    assert M[IdxSlot] == C[IdxSlot];
    BoundLE32();
  }

  /** A record that agrees with the item on its index and type, with the
      item or the destination on every other common slot as the layout
      says, and ends with `last`, is the merge with `last` at the end. */
  lemma {:induction false} SlotsAreMerge(C: Layout, it: Record, dest: Record, res: Record, last: Value)
    requires IsItemLayout(C) && |it| == CommonLen + 1 && |dest| == CommonLen + 1 && |res| == CommonLen + 1
    requires forall k :: 0 <= k < CommonLen && k != TypeSlot && k != IdxSlot ==>
               res[k] == if C[k].kind.Skip? then dest[k] else it[k]
    requires res[TypeSlot] == it[TypeSlot] && res[IdxSlot] == it[IdxSlot] && res[CommonLen] == last
    ensures res == Merge(C + [DamAcField()], it, dest)[CommonLen := last]
  {
    var M := C + [DamAcField()];
    var m := Merge(M, it, dest)[CommonLen := last];
    forall k | 0 <= k < |m| ensures res[k] == m[k] {
      if k < CommonLen {
        assert M[k] == C[k];
      }
    }
  }

  /** In the Hellfire layout an item whose index is not -1 and is available
      comes back as written, skipped slots aside. */
  lemma {:induction false} HellfireExpected(C: Layout, it: Record, dest: Record, avail: int -> bool)
    requires IsItemLayout(C) && WellFormed(C + [DamAcField()], it) && |dest| == CommonLen + 1
    requires Signed32(NumOf(it[IdxSlot])) != Unrepresentable && avail(Signed32(NumOf(it[IdxSlot])))
    ensures Valid(CodecOf(C, true, avail))
    ensures Expected(CodecOf(C, true, avail), it, dest) == Merge(C + [DamAcField()], it, dest)
  {
    ExpectedSlots(C, it, dest, true, avail);
    IndexSurvives(C, it);
    var M := C + [DamAcField()];
    var m := Merge(M, it, dest);
    SlotsAreMerge(C, it, dest, Expected(CodecOf(C, true, avail), it, dest), it[CommonLen]);
    assert m[CommonLen := it[CommonLen]] == m;
  }

  /** A Hellfire index with a base counterpart, other than IDI_SORCEROR,
      survives the base layout's round trip. */
  lemma {:induction false} BaseIndexReturns(idx: int)
    requires ToDiablo(idx) != Unrepresentable && idx != IDI_SORCEROR
    ensures ReturnedIndex(idx, false) == idx
  {
    HellfireRoundTrip(idx);
  }

  /** In the base layout an available item with a base counterpart other
      than IDI_SORCEROR comes back as written, except _iDamAcFlags, which
      reads as 0. */
  lemma {:induction false} BaseExpected(C: Layout, it: Record, dest: Record, avail: int -> bool)
    requires IsItemLayout(C) && WellFormed(C + [DamAcField()], it) && |dest| == CommonLen + 1
    requires var idx := Signed32(NumOf(it[IdxSlot]));
             ToDiablo(idx) != Unrepresentable && idx != IDI_SORCEROR && avail(idx)
    ensures Valid(CodecOf(C, false, avail))
    ensures Expected(CodecOf(C, false, avail), it, dest) == Merge(C + [DamAcField()], it, dest)[CommonLen := Num(0)]
  {
    ExpectedSlots(C, it, dest, false, avail);
    BaseIndexReturns(Signed32(NumOf(it[IdxSlot])));
    IndexSurvives(C, it);
    SlotsAreMerge(C, it, dest, Expected(CodecOf(C, false, avail), it, dest), Num(0));
  }


  /** Hellfire layout, index not -1 and available: saving an item and
      loading it back returns every field the codec writes unchanged and
      consumes 372 bytes. */
  lemma {:induction false} HellfireItemRoundTrip(it: Record, dest: Record, avail: int -> bool, w: Writer)
    requires WellFormed(ItemMemory(), it) && |dest| == |ItemMemory()|
    requires Signed32(NumOf(it[IdxSlot])) != Unrepresentable && avail(Signed32(NumOf(it[IdxSlot])))
    requires WriterOk(w) && CanWrite(w, 372)
    ensures RoundTrips(ItemCodec(true, avail), it, dest, w, Merge(ItemMemory(), it, dest), 372)
  {
    ItemShape();
    HellfireRoundTripOf(ItemCommon(), it, dest, avail, w);
  }

  lemma {:induction false} HellfireRoundTripOf(C: Layout, it: Record, dest: Record, avail: int -> bool, w: Writer)
    requires IsItemLayout(C) && Size(C) == 368
    requires WellFormed(C + [DamAcField()], it) && |dest| == CommonLen + 1
    requires Signed32(NumOf(it[IdxSlot])) != Unrepresentable && avail(Signed32(NumOf(it[IdxSlot])))
    requires WriterOk(w) && CanWrite(w, 372)
    ensures RoundTrips(CodecOf(C, true, avail), it, dest, w, Merge(C + [DamAcField()], it, dest), 372)
  {
    var c := CodecOf(C, true, avail);
    HellfireExpected(C, it, dest, avail);
    assert RecordSize(c) == 372 by {
      SizeConcat(C, [DamAcField()]);
    }
    CodecRoundTripTo(c, it, dest, w, Merge(C + [DamAcField()], it, dest), 372);
  }

  /** Base layout, for an available index with a base counterpart other
      than IDI_SORCEROR: every field comes back except _iDamAcFlags, which
      reads as 0; the record is 368 bytes. */
  lemma {:induction false} BaseItemRoundTrip(it: Record, dest: Record, avail: int -> bool, w: Writer)
    requires WellFormed(ItemMemory(), it) && |dest| == |ItemMemory()|
    requires var idx := Signed32(NumOf(it[IdxSlot]));
             ToDiablo(idx) != Unrepresentable && idx != IDI_SORCEROR && avail(idx)
    requires WriterOk(w) && CanWrite(w, 368)
    ensures RoundTrips(ItemCodec(false, avail), it, dest, w, Merge(ItemMemory(), it, dest)[CommonLen := Num(0)], 368)
  {
    ItemShape();
    BaseRoundTripOf(ItemCommon(), it, dest, avail, w);
  }

  lemma {:induction false} BaseRoundTripOf(C: Layout, it: Record, dest: Record, avail: int -> bool, w: Writer)
    requires IsItemLayout(C) && Size(C) == 368
    requires WellFormed(C + [DamAcField()], it) && |dest| == CommonLen + 1
    requires var idx := Signed32(NumOf(it[IdxSlot]));
             ToDiablo(idx) != Unrepresentable && idx != IDI_SORCEROR && avail(idx)
    requires WriterOk(w) && CanWrite(w, 368)
    ensures RoundTrips(CodecOf(C, false, avail), it, dest, w, Merge(C + [DamAcField()], it, dest)[CommonLen := Num(0)], 368)
  {
    var c := CodecOf(C, false, avail);
    BaseExpected(C, it, dest, avail);
    CodecRoundTripTo(c, it, dest, w, Merge(C + [DamAcField()], it, dest)[CommonLen := Num(0)], 368);
  }

  /** The sorcerer's staff quirk: an item with index IDI_SORCEROR saved in
      the base layout comes back as index 166 (when that is available). */
  lemma {:induction false} SorcerorStaffReturnsAs166(it: Record, dest: Record, avail: int -> bool)
    requires WellFormed(ItemMemory(), it) && |dest| == |ItemMemory()|
    requires Signed32(NumOf(it[IdxSlot])) == IDI_SORCEROR && avail(166)
    ensures Valid(ItemCodec(false, avail))
    ensures Expected(ItemCodec(false, avail), it, dest)[IdxSlot] == Num(166)
  {
    ItemShape();
    ExpectedSlots(ItemCommon(), it, dest, false, avail);
  }

  /** An index the base layout cannot hold, or a returned index the game
      does not offer, leaves an empty slot: index 0, type ITYPE_NONE. */
  lemma {:induction false} DroppedItemIsEmpty(it: Record, dest: Record, hellfire: bool, avail: int -> bool)
    requires WellFormed(ItemMemory(), it) && |dest| == |ItemMemory()|
    requires var back := ReturnedIndex(Signed32(NumOf(it[IdxSlot])), hellfire);
             back == Unrepresentable || !avail(back)
    ensures Valid(ItemCodec(hellfire, avail))
    ensures var res := Expected(ItemCodec(hellfire, avail), it, dest);
            res[IdxSlot] == Num(0) && res[TypeSlot] == Num(Pattern32(ITYPE_NONE))
  {
    ItemShape();
    ExpectedSlots(ItemCommon(), it, dest, hellfire, avail);
  }

  // ---------------------------------------------------------------------
  // The cursor methods, call for call

  method LoadItemData(file: LoadHelper, dest: Record, hellfireSave: bool, avail: int -> bool)
    returns (it: Record)
    requires |dest| == |ItemMemory()|
    modifies file
    ensures Valid(ItemCodec(hellfireSave, avail))
    ensures (it, file.State()) == Load(ItemCodec(hellfireSave, avail), dest, old(file.State()))
  {
    ItemShape();
    ItemCodecValid(hellfireSave, avail);
    it := LoadItemWith(file, ItemCommon(), dest, hellfireSave, avail);
  }

  /** LoadItemData's reads and fix-ups over common fields C. */
  method LoadItemWith(file: LoadHelper, C: Layout, dest: Record, hellfireSave: bool, avail: int -> bool)
    returns (it: Record)
    requires IsItemLayout(C) && |dest| == CommonLen + 1
    modifies file
    ensures Valid(CodecOf(C, hellfireSave, avail))
    ensures (it, file.State()) == Load(CodecOf(C, hellfireSave, avail), dest, old(file.State()))
  {
    CodecOfValid(C, hellfireSave, avail);
    ghost var start := file.State();
    var common := LoadFields(file, C, dest[..CommonLen]);
    var idx := Signed32(NumOf(common[IdxSlot]));
    if !hellfireSave {
      idx := FromDiablo(idx);
    }
    var damAc: Value;
    if hellfireSave {
      ghost var mid := file.State();
      var x := file.Next(LittleEndian, 4);
      damAc := Num(x);
      DecodeConcat(C, [DamAcField()], dest[..CommonLen], [dest[CommonLen]], start);
      DecodeSingle(DamAcField(), dest[CommonLen], mid);
      assert dest[..CommonLen] + [dest[CommonLen]] == dest;
    } else {
      damAc := Num(0);
    }
    if avail(idx) {
      it := common[IdxSlot := Num(Pattern32(idx))] + [damAc];
    } else {
      it := common[TypeSlot := Num(Pattern32(ITYPE_NONE))][IdxSlot := Num(0)] + [damAc];
    }
    assert common[..CommonLen] == common;
  }

  method SaveItem(file: SaveHelper, it: Record, hellfire: bool, ghost avail: int -> bool)
    requires |it| == |ItemMemory()| && file.Valid()
    modifies file, file.buffer
    ensures Valid(ItemCodec(hellfire, avail))
    ensures file.Valid() && file.buffer == old(file.buffer)
    ensures file.State() == Save(ItemCodec(hellfire, avail), it, old(file.State()))
  {
    ItemShape();
    SaveItemWith(file, ItemCommon(), it, hellfire, avail);
  }

  /** SaveItem's fix-ups and writes over common fields C. */
  method SaveItemWith(file: SaveHelper, C: Layout, it: Record, hellfire: bool, ghost avail: int -> bool)
    requires IsItemLayout(C) && |it| == CommonLen + 1 && file.Valid()
    modifies file, file.buffer
    ensures Valid(CodecOf(C, hellfire, avail))
    ensures file.Valid() && file.buffer == old(file.buffer)
    ensures file.State() == Save(CodecOf(C, hellfire, avail), it, old(file.State()))
  {
    CodecOfValid(C, hellfire, avail);
    var idx := Signed32(NumOf(it[IdxSlot]));
    if !hellfire {
      idx := ToDiablo(idx);
    }
    var iType := it[TypeSlot];
    var written := Pattern32(idx);
    if idx == Unrepresentable {
      written := 0;
      iType := Num(Pattern32(ITYPE_NONE));
    }
    ghost var start := file.State();
    ghost var wire := ItemToWire(it, hellfire);
    var common := it[..CommonLen][TypeSlot := iType][IdxSlot := Num(written)];
    assert wire == if hellfire then common + [it[CommonLen]] else common;
    assert Save(CodecOf(C, hellfire, avail), it, start) == EncodeFields(WireOf(C, hellfire), wire, start);
    SaveFields(file, C, common);
    if hellfire {
      ghost var mid := file.State();
      file.Write(LittleEndian, 4, NumOf(it[CommonLen]));
      EncodeConcat(C, [DamAcField()], common, [it[CommonLen]], start);
      EncodeSingle(DamAcField(), it[CommonLen], mid);
    }
  }
}

/** The quest record (LoadQuest and SaveQuest in Source/loadsave.cpp) and
    the five globals written after every quest: ReturnLvlX, ReturnLvlY,
    ReturnLvl, ReturnLvlT and DoomQuestState, big-endian. Hellfire's layout
    (48 bytes) aligns _qmsg and writes it as a 32-bit word; the base layout
    (44 bytes) writes _qmsg as one byte and pads one byte more before _qlog.

    The record a call saves or loads is the twelve QuestStruct fields
    followed by the five globals: a Save call writes the globals' current
    values after the quest, and a Load call sets them again. The game
    file's quest section joins every quest with the one record of the
    globals (Sections.Joined, and QuestGlobals for what that gives). */
module Quests {
  import opened Wire
  import opened Cursor
  import opened Layout
  import opened Codec

  /** _qlevel to _qidx, the same in both layouts. */
  function QuestHead(): Layout
  {
    [Field(U8), Field(U8), Field(U8), Field(U8),  // _qlevel, _qtype, _qactive, _qlvltype
     Field(LE32), Field(LE32), Field(U8), Field(U8)]  // _qtx, _qty, _qslvl, _qidx
  }

  /** _qmsg to _qlog as the layout of a version (true: Hellfire) writes them. */
  function QuestMessage(hellfire: bool): Layout
  {
    if hellfire then
      [Field(Skip(2)), Field(LE32), Field(U8), Field(U8),  // alignment, _qmsg, _qvar1, _qvar2
       Field(Skip(2)), Field(Bool32)]  // alignment, _qlog
    else
      [Field(U8), Field(U8), Field(U8), Field(Skip(2)),  // _qmsg, _qvar1, _qvar2, alignment
       Field(Skip(1)), Field(Bool32)]  // alignment, _qlog
  }

  /** The globals each quest record ends with. */
  function ReturnFields(): Layout
  {
    [Field(BE32), Field(BE32), Field(BE32),  // ReturnLvlX, ReturnLvlY, ReturnLvl
     Field(BE32), Field(BE32)]  // ReturnLvlT, DoomQuestState
  }

  function QuestWire(hellfire: bool): Layout
  {
    QuestHead() + QuestMessage(hellfire) + ReturnFields()
  }

  /** The QuestStruct fields in memory; _qmsg is a full word there. */
  function QuestFields(): Layout
  {
    QuestHead() + [Field(LE32), Field(U8), Field(U8), Field(Bool32)]  // _qmsg, _qvar1, _qvar2, _qlog
  }

  function QuestMemory(): Layout
  {
    QuestFields() + ReturnFields()
  }

  const QuestLen: nat := 17
  const WireLen: nat := 19
  /** Where _qmsg sits in memory and where the globals start. */
  const MsgSlot: nat := 8
  const ReturnSlot: nat := 12

  lemma {:induction false} HeadSize() ensures Size(QuestHead()) == 14 {}
  lemma {:induction false} MessageSize(hellfire: bool)
    ensures Size(QuestMessage(hellfire)) == if hellfire then 14 else 10
  {
    if hellfire {
      assert Size(QuestMessage(true)) == 14;
    } else {
      assert Size(QuestMessage(false)) == 10;
    }
  }
  lemma {:induction false} ReturnSize() ensures Size(ReturnFields()) == 20 {}

  /** 48 bytes in Hellfire's layout, 44 in the base game's. */
  lemma {:induction false} QuestWireSize(hellfire: bool)
    ensures |QuestWire(hellfire)| == WireLen
    ensures Size(QuestWire(hellfire)) == if hellfire then 48 else 44
  {
    HeadSize();
    MessageSize(hellfire);
    ReturnSize();
    SizeConcat(QuestHead(), QuestMessage(hellfire));
    SizeConcat(QuestHead() + QuestMessage(hellfire), ReturnFields());
  }

  /** The wire slots the memory slots 8 to 11 travel in. */
  function WireSlot(k: nat, hellfire: bool): nat
    requires MsgSlot <= k < ReturnSlot
  {
    if hellfire then
      (if k == 11 then 13 else k + 1)
    else
      (if k == 11 then 13 else k)
  }

  /** The values SaveQuest writes: the quest with padding around its
      fields; in the base layout _qmsg is cut to its low byte (writeByte). */
  function Spread(x: Record, hellfire: bool): (rec: Record)
    requires |x| == QuestLen
    ensures |rec| == WireLen
  {
    var msg := if hellfire then x[8] else Num(NumOf(x[8]) % 256);
    var mid :=
      if hellfire then [Num(0), msg, x[9], x[10], Num(0), x[11]]
      else [msg, x[9], x[10], Num(0), Num(0), x[11]];
    x[..8] + mid + x[12..]
  }

  /** The quest a Load call assembles from the values read: the padding
      dropped. */
  function Gather(rec: Record, hellfire: bool): (x: Record)
    requires |rec| == WireLen
    ensures |x| == QuestLen
  {
    var mid := if hellfire then [rec[9], rec[10], rec[11], rec[13]] else [rec[8], rec[9], rec[10], rec[13]];
    rec[..8] + mid + rec[14..]
  }

  /** The quest codec of a version: gbIsHellfire on the Save side,
      gbIsHellfireSaveGame on the Load side, the same for a save read by
      the game that wrote it. */
  function QuestCodec(hellfire: bool): Codec
  {
    Codec(QuestMemory(), QuestWire(hellfire), QuestWire(hellfire),
          (a: Arg) => var x := a.r; if |x| == QuestLen then Spread(x, hellfire) else x,
          (a: Arg) => var d := a.r; if |d| == QuestLen then Spread(d, hellfire) else d,
          (a: Arg, b: Arg) => var rec, d := a.r, b.r; if |rec| == WireLen then Gather(rec, hellfire) else d)
  }

  /** The quest a base-layout round trip gives back: _qmsg keeps only its
      low byte. */
  function Truncated(x: Record, hellfire: bool): (y: Record)
    requires |x| == QuestLen
    ensures |y| == QuestLen
  {
    if hellfire then x else x[MsgSlot := Num(NumOf(x[MsgSlot]) % 256)]
  }

  lemma {:induction false} MemoryShape()
    ensures |QuestMemory()| == QuestLen
    ensures QuestMemory()[MsgSlot] == Field(LE32)  // _qmsg
    ensures forall k :: 0 <= k < 8 ==> QuestMemory()[k] == QuestHead()[k]
    ensures forall k :: ReturnSlot <= k < QuestLen ==> QuestMemory()[k] == ReturnFields()[k - ReturnSlot]
  {
  }

  lemma {:induction false} WireShape(hellfire: bool)
    ensures |QuestWire(hellfire)| == WireLen
    ensures forall k :: 0 <= k < 8 ==> QuestWire(hellfire)[k] == QuestHead()[k]
    ensures forall k :: 14 <= k < WireLen ==> QuestWire(hellfire)[k] == ReturnFields()[k - 14]
    ensures forall k :: 8 <= k < 14 ==> QuestWire(hellfire)[k] == QuestMessage(hellfire)[k - 8]
  {
  }

  lemma {:induction false} SpreadFits(x: Record, hellfire: bool)
    requires WellFormed(QuestMemory(), x)
    ensures WellFormed(QuestWire(hellfire), Spread(x, hellfire))
  {
    MemoryShape();
    WireShape(hellfire);
    var rec := Spread(x, hellfire);
    var L := QuestWire(hellfire);
    var M := QuestMemory();
    forall k | 0 <= k < WireLen ensures Fits(L[k].kind, rec[k]) {
      if k < 8 {
        assert rec[k] == x[k] && L[k] == M[k];
      } else if k >= 14 {
        assert rec[k] == x[k - 2] && L[k] == M[k - 2];
      } else {
        assert L[k] == QuestMessage(hellfire)[k - 8];
        if k == WireSlot(9, hellfire) || k == WireSlot(10, hellfire) || k == WireSlot(11, hellfire) {
          assert M[9].kind == U8 && M[10].kind == U8 && M[11].kind == Bool32;
        }
      }
    }
  }

  lemma {:induction false} QuestCodecValid(hellfire: bool)
    ensures Valid(QuestCodec(hellfire))
  {
    var c := QuestCodec(hellfire);
    forall x | WellFormed(c.mem, x) ensures WellFormed(c.save, c.toWire(Arg(x))) {
      SpreadFits(x, hellfire);
    }
  }

  /** The wire slots a Load call keeps. */
  predicate Gathered(j: nat, hellfire: bool)
  {
    j < 8 || j >= 14 || j == 13 || (if hellfire then 9 <= j <= 11 else 8 <= j <= 10)
  }

  /** Every slot Gather keeps is one the layout reads. */
  lemma {:induction false} ReadsGathered(hellfire: bool)
    ensures |QuestWire(hellfire)| == WireLen
    ensures forall j :: 0 <= j < WireLen && Gathered(j, hellfire) ==> !QuestWire(hellfire)[j].kind.Skip?
  {
    WireShape(hellfire);
  }

  /** Gathering after a merge sees only the values read. */
  lemma {:induction false} GatherMerge(L: Layout, s: Record, d: Record, hellfire: bool)
    requires |L| == WireLen && |s| == WireLen && |d| == WireLen
    requires forall j :: 0 <= j < WireLen && Gathered(j, hellfire) ==> !L[j].kind.Skip?
    ensures Gather(Merge(L, s, d), hellfire) == Gather(s, hellfire)
  {
    var m := Merge(L, s, d);
    assert m[..8] == s[..8];
    assert m[14..] == s[14..];
    assert Gathered(8, hellfire) ==> m[8] == s[8];
    assert Gathered(11, hellfire) ==> m[11] == s[11];
    assert m[9] == s[9] && m[10] == s[10] && m[13] == s[13];
  }

  /** Gather undoes Spread, up to the base layout's cut of _qmsg. */
  lemma {:induction false} GatherSpread(x: Record, hellfire: bool)
    requires |x| == QuestLen
    ensures Gather(Spread(x, hellfire), hellfire) == Truncated(x, hellfire)
  {
  }

  /** Loading a saved quest gives it back, whatever the destination held,
      except that the base layout keeps only _qmsg's low byte. */
  lemma {:induction false} QuestExpected(x: Record, dest: Record, hellfire: bool)
    requires WellFormed(QuestMemory(), x) && |dest| == QuestLen
    ensures Valid(QuestCodec(hellfire))
    ensures Expected(QuestCodec(hellfire), x, dest) == Truncated(x, hellfire)
  {
    QuestCodecValid(hellfire);
    ReadsGathered(hellfire);
    GatherMerge(QuestWire(hellfire), Spread(x, hellfire), Spread(dest, hellfire), hellfire);
    GatherSpread(x, hellfire);
  }

  /** Saving a quest with its globals and loading it back: the quest and
      the globals return (the base layout keeps _qmsg's low byte) and the
      read ends where the write ended, 48 or 44 bytes on. */
  lemma {:induction false} QuestRoundTrip(x: Record, dest: Record, hellfire: bool, w: Writer)
    requires WellFormed(QuestMemory(), x) && |dest| == QuestLen
    requires WriterOk(w) && CanWrite(w, if hellfire then 48 else 44)
    ensures Valid(QuestCodec(hellfire))
    ensures var c := QuestCodec(hellfire);
            var w' := Save(c, x, w);
            Load(c, dest, Reader(true, w'.buf, w.ptr)) ==
            (Truncated(x, hellfire), Reader(true, w'.buf, w.ptr + if hellfire then 48 else 44))
  {
    QuestWireSize(hellfire);
    QuestExpected(x, dest, hellfire);
    CodecRoundTrip(QuestCodec(hellfire), x, dest, w);
  }

  /** A message id below 256 survives either layout; the base layout loses
      every larger one (it comes back as its low byte). */
  lemma {:induction false} MessageSurvives(x: Record, hellfire: bool)
    requires WellFormed(QuestMemory(), x)
    ensures Truncated(x, hellfire) == x <==> hellfire || NumOf(x[MsgSlot]) < 256
  {
    MemoryShape();
    if !hellfire && NumOf(x[MsgSlot]) >= 256 {
      assert Truncated(x, hellfire)[MsgSlot] != x[MsgSlot];
    }
  }

  /** The globals a quest record carries. */
  function Globals(x: Record): (g: Record)
    requires |x| == QuestLen
    ensures |g| == 5
  {
    x[ReturnSlot..]
  }

  /** A round trip leaves the globals untouched in either layout. */
  lemma {:induction false} GlobalsSurvive(x: Record, hellfire: bool)
    requires |x| == QuestLen
    ensures Globals(Truncated(x, hellfire)) == Globals(x)
  {
  }

  // ---------------------------------------------------------------------
  // The cursor methods, call for call

  method LoadQuest(file: LoadHelper, dest: Record, hellfireSave: bool) returns (x: Record)
    requires |dest| == QuestLen
    modifies file
    ensures Valid(QuestCodec(hellfireSave))
    ensures (x, file.State()) == Load(QuestCodec(hellfireSave), dest, old(file.State()))
  {
    QuestCodecValid(hellfireSave);
    var rec := LoadFields(file, QuestWire(hellfireSave), Spread(dest, hellfireSave));
    x := Gather(rec, hellfireSave);
  }

  method SaveQuest(file: SaveHelper, x: Record, hellfire: bool)
    requires |x| == QuestLen && file.Valid()
    modifies file, file.buffer
    ensures Valid(QuestCodec(hellfire))
    ensures file.Valid() && file.buffer == old(file.buffer)
    ensures file.State() == Save(QuestCodec(hellfire), x, old(file.State()))
  {
    QuestCodecValid(hellfire);
    SaveFields(file, QuestWire(hellfire), Spread(x, hellfire));
  }
}

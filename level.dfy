/** The level file (SaveLevel and LoadLevel in Source/loadsave.cpp).

    SaveLevel writes the state of the current level only: dDead, the three
    counts, the monster and object pools with their tables, the items with
    theirs, the grids dFlags and dItem, and outside town dMonster, dObject,
    dLight, dPreLight, automapview and dMissile. Every one of these loops
    is the loop SaveGame runs for the same global, so section i of the
    level file is a section of the game file (LevelSource). LoadLevel
    reads the same sections back but the last: outside town it sets every
    cell of dMissile to 0 instead, so the dMissile bytes that SaveLevel
    writes are never read.

    Whether the level is the town is decided by leveltype, which the level
    file does not hold. The blob's name is computed from setlevel,
    setlvlnum and currlevel in code that is not part of this model
    (GetPermLevelNames, GetTempLevelNames), and so is a parameter. */
module Level {
  import opened Wire
  import opened Cursor
  import opened Layout
  import opened Codec
  import opened Header
  import opened Sections
  import opened Files
  import opened Game
  import Grid
  import Player

  /** The sections SaveLevel writes, and those LoadLevel reads. */
  const LevelCount: nat := 20
  const LoadCount: nat := 19

  const SeedSlot: nat := 6
  const MissileSlot: nat := 39

  /** The game-file section each section of the level file repeats. */
  function LevelSource(i: nat): (j: nat)
    requires i < LevelCount
    ensures j < GameCount
  {
    if i == 0 then 34  // dDead
    else if i == 1 then 2  // nummonsters
    else if i == 2 then 3  // numitems
    else if i == 3 then 5  // nobjects
    else if i == 4 then 11  // monstactive
    else if i == 5 then 12  // monsters
    else if i == 6 then 16  // objectactive
    else if i == 7 then 17  // objectavail
    else if i == 8 then 18  // objects
    else if i == 9 then 25  // itemactive
    else if i == 10 then 26  // itemavail
    else if i == 11 then 27  // items
    else if i == 12 then 30  // dFlags
    else if i == 13 then 32  // dItem
    else if i == 14 then 33  // dMonster
    else if i == 15 then 35  // dObject
    else if i == 16 then 36  // dLight
    else if i == 17 then 37  // dPreLight
    else if i == 18 then 38  // automapview
    else 39  // dMissile
  }

  /** Where in the level file the section filling slot s is; LevelCount
      for a slot the level file does not hold. */
  function LevelIndex(s: nat): nat
  {
    if s == 34 then 0
    else if s == 2 then 1
    else if s == 3 then 2
    else if s == 5 then 3
    else if s == 11 then 4
    else if s == 12 then 5
    else if s == 16 then 6
    else if s == 17 then 7
    else if s == 18 then 8
    else if s == 25 then 9
    else if s == 26 then 10
    else if s == 27 then 11
    else if s == 30 then 12
    else if s == 32 then 13
    else if s == 33 then 14
    else if s == 35 then 15
    else if s == 29 then 16
    else if s == 37 then 17
    else if s == 38 then 18
    else if s == 39 then 19
    else LevelCount
  }

  /** The loops of SaveLevel in order; in town the dungeon loops write
      nothing. */
  function LevelSections(cfg: Config, hellfire: bool, town: bool): (secs: seq<Section>)
    ensures |secs| == LevelCount && SectionsValid(secs)
    ensures forall i :: 0 <= i < LevelCount ==> secs[i] == GameSection(LevelSource(i), cfg, hellfire, town)
  {
    seq(LevelCount, i requires 0 <= i < LevelCount => GameSection(LevelSource(i), cfg, hellfire, town))
  }

  // ---------------------------------------------------------------------
  // The globals SaveLevel sets

  /** Field f of record k of slot s set to v, when the store has it. */
  function SetField(st: Store, s: nat, k: nat, f: nat, v: Value): (st': Store)
    ensures |st'| == |st|
    ensures forall t :: t != s ==> Pool(st', t) == Pool(st, t)
    ensures |Pool(st', s)| == |Pool(st, s)|
    ensures forall m :: m != k ==> Rec(st', s, m) == Rec(st, s, m)
    ensures var x := Rec(st, s, k); Rec(st', s, k) == if f < |x| then x[f := v] else x
  {
    var x := Rec(st, s, k);
    if f < |x| then st[s := st[s][k := x[f := v]]] else st
  }

  /** `if (currlevel == 0) glSeedTbl[0] = AdvanceRndSeed()`; seed is the
      value AdvanceRndSeed returns. */
  function Seeded(st: Store, seed: int): Store
  {
    if Entry(st, LevelSlot, 2) == 0 then SetField(st, SeedSlot, 0, 0, Num(Pattern32(seed))) else st
  }

  /** The vitals field of the visited flag of the current level:
      _pLvlVisited[currlevel] for a regular level, _pSLvlVisited[setlvlnum]
      for a set level, each array having NUMLEVELS entries; none when the
      number is out of that range (the source does not check it). */
  function VisitedField(st: Store): (f: int)
    ensures 0 <= f ==> Player.VisitedAt <= f < Player.VisitedAt + 2 * Player.NumLevels
  {
    if Entry(st, LevelSlot, 0) == 0 then
      var n := Entry(st, LevelSlot, 2);
      if 0 <= n < Player.NumLevels then Player.VisitedAt + n else -1
    else
      var n := Entry(st, LevelSlot, 1);
      if 0 <= n < Player.NumLevels then Player.VisitedAt + Player.NumLevels + n else -1
  }

  /** SaveLevel's last step: the visited flag of the current level set to
      TRUE in the player. */
  function MarkVisited(st: Store): Store
  {
    var f := VisitedField(st);
    if f < 0 then st else SetField(st, PlayerSlot, Player.VitalsAt, f, Num(1))
  }

  // ---------------------------------------------------------------------
  // LoadLevel and SaveLevel

  /** LoadLevel's result: the globals, or app_fatal when there is no blob
      to read. */
  datatype LevelLoad = LevelRead(st: Store) | NoLevel

  /** MAXDUNX * MAXDUNY, the cells of a dungeon grid. */
  function DunCells(lim: Limits): nat
  {
    lim.dunX * lim.dunY
  }

  /** `dMissile[i][j] = 0` for every cell. */
  function ClearMissiles(st: Store, lim: Limits): (st': Store)
    ensures |st'| == |st|
    ensures forall t :: t != MissileSlot ==> Pool(st', t) == Pool(st, t)
    ensures |Pool(st', MissileSlot)| == |Pool(st, MissileSlot)|
    ensures 0 < |Pool(st, MissileSlot)| ==> First(st', MissileSlot) == Grid.Zeros(DunCells(lim))
  {
    if MissileSlot < |st| && 0 < |st[MissileSlot]| then st[MissileSlot := st[MissileSlot][0 := Grid.Zeros(DunCells(lim))]]
    else st
  }

  /** LoadLevel on the blob name of an archive (files), D holding the
      globals before the call, hellfire being gbIsHellfireSaveGame: the
      sections but dMissile, with the dungeon loops only outside town, then
      outside town dMissile cleared. */
  ghost function LoadLevelFrom(files: map<string, seq<byte>>, name: string, hellfire: bool, cfg: Config, D: Store): LevelLoad
  {
    ReadLevel(BlobReader(files, name), LevelSections(cfg, hellfire, IsTown(D)), IsTown(D), cfg.lim, D)
  }

  /** The same from the reader r, with the sections secs. */
  ghost function ReadLevel(r: Reader, secs: seq<Section>, town: bool, lim: Limits, D: Store): LevelLoad
    requires LoadCount <= |secs|
  {
    if !CanRead(r, 1) then NoLevel
    else
      var st := LoadRange(SectionLoader(LoadOne), secs, D, r, 0, LoadCount).0;
      LevelRead(if town then st else ClearMissiles(st, lim))
  }

  /** The writer of SaveLevel after every section. */
  ghost function LevelWriter(st: Store, hellfire: bool, cfg: Config, cap: nat, alloc: seq<byte>): Writer
    requires cap <= |alloc|
  {
    SaveParts(SaveOne, Parts(LevelSections(cfg, hellfire, IsTown(st)), st), Writer(true, alloc, 0, cap), LevelCount)
  }

  /** What SaveLevel writes ends within the allocation: FILEBUFF is taken
      to be large enough. */
  ghost predicate LevelFits(st: Store, hellfire: bool, cfg: Config, cap: nat, alloc: seq<byte>)
    requires cap <= |alloc|
  {
    LevelWriter(st, hellfire, cfg, cap, alloc).ptr <= |alloc|
  }

  /** The blob SaveLevel flushes. */
  ghost function LevelBlob(st: Store, hellfire: bool, cfg: Config, cap: nat, alloc: seq<byte>): seq<byte>
    requires cap <= |alloc|
  {
    Contents(LevelWriter(st, hellfire, cfg, cap, alloc))
  }

  /** LoadLevel: opens the blob, stops when there is none, reads the
      sections and clears dMissile outside town. */
  method LoadLevel(archive: Archive, permName: LevelId -> string, hellfire: bool, cfg: Config, D: Store) returns (out: LevelLoad)
    ensures out == LoadLevelFrom(archive.files, permName(LevelOf(D)), hellfire, cfg, D)
  {
    var file := new LoadHelper(archive, permName(LevelOf(D)));
    var ok := file.IsValid(1);
    if !ok {
      return NoLevel;
    }
    var town := IsTown(D);
    var st := ReadSections(file, LevelSections(cfg, hellfire, town), D, 0, LoadCount);
    if !town {
      st := ClearMissiles(st, cfg.lim);
    }
    out := LevelRead(st);
  }

  /** SaveLevel (hellfire is gbIsHellfire): seeds level 0, writes every section into a buffer
      of cap bytes, flushes it under the level's name and marks the level
      visited. Returns the globals it leaves. */
  method SaveLevel(archive: Archive, tempName: LevelId -> string, st: Store, seed: int, hellfire: bool,
                   cfg: Config, cap: nat, alloc: seq<byte>) returns (saved: Store)
    requires cap <= |alloc| && LevelFits(Seeded(st, seed), hellfire, cfg, cap, alloc)
    modifies archive
    ensures saved == MarkVisited(Seeded(st, seed))
    ensures archive.files == old(archive.files)[tempName(LevelOf(st)) := LevelBlob(Seeded(st, seed), hellfire, cfg, cap, alloc)]
  {
    var cur := Seeded(st, seed);
    assert LevelOf(cur) == LevelOf(st) by {
      SeededKeepsLevel(st, seed);
    }
    var file := new SaveHelper(tempName(LevelOf(cur)), cap, alloc);
    assert file.State() == Writer(true, alloc, 0, cap) by {
      assert file.buffer[..] == alloc;
    }
    WriteAndFlush(file, archive, LevelSections(cfg, hellfire, IsTown(cur)), cur);
    saved := MarkVisited(cur);
  }

  // ---------------------------------------------------------------------
  // The level the globals name

  /** setlevel, setlvlnum and currlevel: what the level file's name is
      computed from. */
  datatype LevelId = LevelId(setLevel: bool, setLevelNum: int, currLevel: int)

  function LevelOf(st: Store): LevelId
  {
    LevelId(Entry(st, LevelSlot, 0) != 0, Entry(st, LevelSlot, 1), Entry(st, LevelSlot, 2))
  }

  /** Seeding level 0 leaves the level globals as they are. */
  lemma {:induction false} SeededKeepsLevel(st: Store, seed: int)
    ensures First(Seeded(st, seed), LevelSlot) == First(st, LevelSlot)
    ensures LevelOf(Seeded(st, seed)) == LevelOf(st) && IsTown(Seeded(st, seed)) == IsTown(st)
  {
  }

  /** In the town glSeedTbl[0] holds the seed afterwards, read back as the
      signed 32-bit value it was; on any other level nothing changes. */
  lemma {:induction false} SeedStored(st: Store, seed: int)
    requires -0x8000_0000 <= seed < 0x8000_0000
    ensures Entry(st, LevelSlot, 2) == 0 && 0 < |First(st, SeedSlot)| ==> Entry(Seeded(st, seed), SeedSlot, 0) == seed
    ensures Entry(st, LevelSlot, 2) != 0 ==> Seeded(st, seed) == st
    ensures forall t :: t != SeedSlot ==> Pool(Seeded(st, seed), t) == Pool(st, t)
  {
    SignedPattern(seed);
  }

  /** Marking the level visited sets its one flag in the player's vitals
      and nothing else, keeps the level globals, and marking it again
      changes nothing. */
  lemma {:induction false} VisitedMarked(st: Store)
    ensures var st', f, x := MarkVisited(st), VisitedField(st), Rec(st, PlayerSlot, Player.VitalsAt);
            (forall t :: t != PlayerSlot ==> Pool(st', t) == Pool(st, t)) &&
            (forall m :: m != Player.VitalsAt ==> Rec(st', PlayerSlot, m) == Rec(st, PlayerSlot, m)) &&
            Rec(st', PlayerSlot, Player.VitalsAt) == (if 0 <= f < |x| then x[f := Num(1)] else x) &&
            LevelOf(st') == LevelOf(st) && VisitedField(st') == f
    ensures MarkVisited(MarkVisited(st)) == MarkVisited(st)
  {
    var st', f := MarkVisited(st), VisitedField(st);
    assert First(st', LevelSlot) == First(st, LevelSlot);
    if 0 <= f {
      var x := Rec(st, PlayerSlot, Player.VitalsAt);
      if f < |x| {
        var y := x[f := Num(1)];
        assert y[f := Num(1)] == y;
        assert st'[PlayerSlot][Player.VitalsAt := y] == st'[PlayerSlot];
        assert st'[PlayerSlot := st'[PlayerSlot]] == st';
      }
    }
  }

  // ---------------------------------------------------------------------
  // The shape of the section list

  /** What the round trip uses of the level file's sections: no two fill
      the same slot, and every counted section takes its count and indices
      from keys written before it. */
  ghost predicate LevelShape(secs: seq<Section>)
  {
    |secs| == LevelCount && SectionsValid(secs) && Indexed(secs, LevelIndex) && Keyed(secs, LevelIndex)
  }

  lemma {:induction false} LevelIndexed(cfg: Config, hellfire: bool, town: bool)
    ensures Indexed(LevelSections(cfg, hellfire, town), LevelIndex)
  {
    hide FullSection;
    var secs := LevelSections(cfg, hellfire, town);
    forall i | 0 <= i < LevelCount
      ensures LevelIndex(secs[i].slot) == i
    {
      assert secs[i].slot == SlotOf(LevelSource(i));
    }
  }

  /** The monsters, the objects and the items read their counts and
      tables from keys written before them. */
  lemma {:induction false} LevelPicked(cfg: Config, hellfire: bool, town: bool, i: nat)
    requires i < LevelCount && LevelSections(cfg, hellfire, town)[i].Picked?
    ensures var secs := LevelSections(cfg, hellfire, town);
            KeyIn(secs, LevelIndex, secs[i].count, i) && (secs[i].pick.ByIds? ==> KeyIn(secs, LevelIndex, secs[i].pick.table, i))
  {
    var secs := LevelSections(cfg, hellfire, town);
    var sec := secs[i];
    assert sec == GameSection(LevelSource(i), cfg, hellfire, town);
    assert LevelSource(i) in {12, 15, 18, 21, 24, 27} && sec == FullSection(LevelSource(i), cfg, hellfire);
    var kc, kt := if i == 5 then 1 else if i == 8 then 3 else 2, if i == 5 then 4 else if i == 8 then 6 else 9;
    SourcePicks(cfg, hellfire, i, kc, kt);
    CountedKeys(cfg, hellfire, town, i, kc, kt);
    PicksKeyed(secs, LevelIndex, i, LevelSource(kc), LevelSource(kt));
  }

  lemma {:induction false} PicksKeyed(secs: seq<Section>, at: nat -> nat, i: nat, c: nat, t: nat)
    requires i < |secs| && secs[i].Picked? && secs[i].count == c && secs[i].pick == ByIds(t)
    requires KeyIn(secs, at, c, i) && KeyIn(secs, at, t, i)
    ensures KeyIn(secs, at, secs[i].count, i) && (secs[i].pick.ByIds? ==> KeyIn(secs, at, secs[i].pick.table, i))
  {
  }

  /** Counted section i reads its count from section kc and its indices
      from section kt, both written before it. */
  lemma {:induction false} CountedKeys(cfg: Config, hellfire: bool, town: bool, i: nat, kc: nat, kt: nat)
    requires (i == 5 && kc == 1 && kt == 4) || (i == 8 && kc == 3 && kt == 6) || (i == 11 && kc == 2 && kt == 9)
    requires !town || i == 11
    ensures KeyIn(LevelSections(cfg, hellfire, town), LevelIndex, LevelSource(kc), i)
    ensures KeyIn(LevelSections(cfg, hellfire, town), LevelIndex, LevelSource(kt), i)
  {
    KeyOf(cfg, hellfire, town, kc, i);
    KeyOf(cfg, hellfire, town, kt, i);
  }

  /** The monsters count in nummonsters and pick by monstactive, the
      objects by nobjects and objectactive, the items by numitems and
      itemactive. */
  lemma {:induction false} SourcePicks(cfg: Config, hellfire: bool, i: nat, kc: nat, kt: nat)
    requires (i == 5 && kc == 1 && kt == 4) || (i == 8 && kc == 3 && kt == 6) || (i == 11 && kc == 2 && kt == 9)
    ensures var sec := FullSection(LevelSource(i), cfg, hellfire);
            sec.Picked? && sec.count == LevelSource(kc) && sec.pick == ByIds(LevelSource(kt))
  {
    if i == 5 {
      assert FullSection(12, cfg, hellfire) == MonsterSection(cfg.plid);
    } else if i == 8 {
      assert FullSection(18, cfg, hellfire) == PoolSection(18, cfg);
    } else {
      assert FullSection(27, cfg, hellfire) == ItemSection(cfg.avail, hellfire);
    }
  }

  /** The count and table sections are keys that fill their slots alone. */
  lemma {:induction false} KeyOf(cfg: Config, hellfire: bool, town: bool, k: nat, i: nat)
    requires k in {1, 2, 3, 4, 6, 9} && !(town && k in {4, 6}) && k < i <= LevelCount
    ensures KeyIn(LevelSections(cfg, hellfire, town), LevelIndex, LevelSource(k), i)
  {
    var secs := LevelSections(cfg, hellfire, town);
    var s := LevelSource(k);
    assert secs[k] == FullSection(s, cfg, hellfire);
    KeyTable(s, cfg, hellfire);
    LevelIndexed(cfg, hellfire, town);
    IndexedAlone(secs, LevelIndex, k);
  }

  lemma {:induction false} LevelSectionsShape(cfg: Config, hellfire: bool, town: bool)
    ensures LevelShape(LevelSections(cfg, hellfire, town))
  {
    var secs := LevelSections(cfg, hellfire, town);
    LevelIndexed(cfg, hellfire, town);
    forall i | 0 <= i < LevelCount && secs[i].Picked?
      ensures KeyIn(secs, LevelIndex, secs[i].count, i) && (secs[i].pick.ByIds? ==> KeyIn(secs, LevelIndex, secs[i].pick.table, i))
    {
      LevelPicked(cfg, hellfire, town, i);
    }
  }

  /** A store in shape for a dungeon level is in shape for the town. */
  lemma {:induction false} LevelShapedTown(st: Store, cfg: Config, hellfire: bool, town: bool)
    requires ShapedFor(st, LevelSections(cfg, hellfire, false))
    ensures ShapedFor(st, LevelSections(cfg, hellfire, town))
  {
    var secs, full := LevelSections(cfg, hellfire, town), LevelSections(cfg, hellfire, false);
    forall i | 0 <= i < LevelCount
      ensures RunSized(st, secs[i])
    {
      assert RunSized(st, full[i]);
    }
  }

  /** LoadLevel leaves alone every global the level file does not hold:
      the level globals, the quests, the player and the rest. */
  lemma {:induction false} LoadLevelKeeps(files: map<string, seq<byte>>, name: string, hellfire: bool, cfg: Config, D: Store, s: nat)
    requires LevelIndex(s) == LevelCount
    ensures var out := LoadLevelFrom(files, name, hellfire, cfg, D);
            out.LevelRead? ==> Pool(out.st, s) == Pool(D, s) && LevelOf(out.st) == LevelOf(D) && |out.st| == |D|
  {
    LevelIndexed(cfg, hellfire, IsTown(D));
    ReadLevelKeeps(BlobReader(files, name), LevelSections(cfg, hellfire, IsTown(D)), IsTown(D), cfg.lim, D, s);
  }

  /** The level globals are not part of a level file. */
  lemma LevelSlotUnread()
    ensures LevelIndex(LevelSlot) == LevelCount
  {
  }

  lemma {:induction false} ReadLevelKeeps(r: Reader, secs: seq<Section>, town: bool, lim: Limits, D: Store, s: nat)
    requires |secs| == LevelCount && Indexed(secs, LevelIndex) && LevelIndex(s) == LevelCount
    ensures var out := ReadLevel(r, secs, town, lim, D);
            out.LevelRead? ==> Pool(out.st, s) == Pool(D, s) && LevelOf(out.st) == LevelOf(D) && |out.st| == |D|
  {
    if CanRead(r, 1) {
      var st := LoadRange(SectionLoader(LoadOne), secs, D, r, 0, LoadCount).0;
      var st' := if town then st else ClearMissiles(st, lim);
      LoadKeeps(secs, D, r, town, lim, s);
      LoadKeeps(secs, D, r, town, lim, LevelSlot);
      SameLevel(st', D);
    }
  }

  lemma {:induction false} LoadKeeps(secs: seq<Section>, D: Store, r: Reader, town: bool, lim: Limits, s: nat)
    requires |secs| == LevelCount && Indexed(secs, LevelIndex) && LevelIndex(s) == LevelCount
    ensures var st := LoadRange(SectionLoader(LoadOne), secs, D, r, 0, LoadCount).0;
            Pool(if town then st else ClearMissiles(st, lim), s) == Pool(D, s) && |st| == |D|
  {
    LoadRangeLength(LoadOne, secs, D, r, 0, LoadCount);
    IndexedUntouched(secs, LevelIndex, s, LoadCount);
    LoadUntouched(LoadOne, secs, D, r, s, 0, LoadCount);
  }

  lemma {:induction false} SameLevel(a: Store, b: Store)
    requires Pool(a, LevelSlot) == Pool(b, LevelSlot)
    ensures LevelOf(a) == LevelOf(b) && IsTown(a) == IsTown(b)
  {
    assert First(a, LevelSlot) == First(b, LevelSlot);
  }

  // ---------------------------------------------------------------------
  // The round trip of the level file

  /** Every record SaveLevel writes is well formed and they fit the buffer
      of cap bytes. */
  ghost predicate LevelReady(st: Store, hellfire: bool, cfg: Config, cap: nat)
  {
    var secs := LevelSections(cfg, hellfire, IsTown(st));
    (forall j :: 0 <= j < LevelCount ==> SectionWellFormed(secs[j], st)) &&
    PartsOffset(Parts(secs, st), LevelCount) <= cap
  }

  /** The globals a round trip of the level file leaves in D: the sections
      but dMissile as their codecs restore them, and outside town dMissile
      cleared. */
  ghost function RestoredLevel(st: Store, D: Store, hellfire: bool, cfg: Config): Store
  {
    RestoredFrom(st, D, LevelSections(cfg, hellfire, IsTown(st)), IsTown(st), cfg.lim)
  }

  /** The same for any list of sections. */
  ghost function RestoredFrom(st: Store, D: Store, secs: seq<Section>, town: bool, lim: Limits): Store
    requires LoadCount <= |secs|
  {
    var st1 := RestoreUpTo(Restorer(st), secs, D, LoadCount);
    if town then st1 else ClearMissiles(st1, lim)
  }

  /** The three counts are always written, so a level blob is never empty. */
  lemma {:induction false} CountsWritten(st: Store, cfg: Config, hellfire: bool, town: bool)
    ensures 4 <= PartsOffset(Parts(LevelSections(cfg, hellfire, town), st), LevelCount)
  {
    var secs := LevelSections(cfg, hellfire, town);
    var ps := Parts(secs, st);
    assert ps[1] == PartOf(Table(2, Word()), st) by {
      assert secs[1] == Table(2, Word());
    }
    WordSize(2, st);
    PartsOffsetMono(ps, 2, LevelCount);
  }

  lemma {:induction false} WordSize(s: nat, st: Store)
    ensures PartSize(PartOf(Table(s, Word()), st)) == 4
  {
    var cs := SectionSchema(Table(s, Word()), st);
    assert cs == [Plain(Word())];
    assert Plain(Word()).save == [Field(BE32)];
    assert Size([Field(BE32)]) == 4 by {
      assert [Field(BE32)][1..] == [];
    }
    assert Offset(cs, 1) == Offset(cs, 0) + RecordSize(cs[0]);
  }

  /** The blob SaveLevel flushes holds the parts of the sections. */
  lemma {:induction false} LevelBlobHolds(st: Store, hellfire: bool, cfg: Config, cap: nat, alloc: seq<byte>)
    requires cap <= |alloc| && LevelReady(st, hellfire, cfg, cap)
    ensures LevelFits(st, hellfire, cfg, cap, alloc)
    ensures var blob := LevelBlob(st, hellfire, cfg, cap, alloc);
            1 <= |blob| && PartsAt(Parts(LevelSections(cfg, hellfire, IsTown(st)), st), blob, 0, LevelCount)
  {
    var secs := LevelSections(cfg, hellfire, IsTown(st));
    var w0 := Writer(true, alloc, 0, cap);
    PartsOfWellFormed(secs, st);
    PartsBlob(Parts(secs, st), w0);
    SavePartsKeeps(Parts(secs, st), w0, LevelCount);
    CountsWritten(st, cfg, hellfire, IsTown(st));
  }

  /** LoadLevel on a blob that holds the parts saved from st, into globals
      whose leveltype is st's. */
  lemma {:induction false} LevelLoadsBlob(files: map<string, seq<byte>>, name: string, blob: seq<byte>, st: Store, D: Store,
                                          hellfire: bool, cfg: Config)
    requires 1 <= |blob| && PartsAt(Parts(LevelSections(cfg, hellfire, IsTown(st)), st), blob, 0, LevelCount)
    requires ShapedFor(st, LevelSections(cfg, hellfire, false)) && ShapedFor(D, LevelSections(cfg, hellfire, false))
    requires IsTown(D) == IsTown(st)
    ensures LoadLevelFrom(files[name := blob], name, hellfire, cfg, D) == LevelRead(RestoredLevel(st, D, hellfire, cfg))
  {
    var secs := LevelSections(cfg, hellfire, IsTown(st));
    LevelSectionsLoad(st, D, cfg, hellfire, IsTown(st));
    LevelLoads(SectionLoader(LoadOne), Restorer(st), secs, Parts(secs, st), st, D, blob);
  }

  /** The level file's sections load back what was saved. */
  lemma {:induction false} LevelSectionsLoad(st: Store, D: Store, cfg: Config, hellfire: bool, town: bool)
    requires ShapedFor(st, LevelSections(cfg, hellfire, false)) && ShapedFor(D, LevelSections(cfg, hellfire, false))
    ensures var secs := LevelSections(cfg, hellfire, town);
            LoadsParts(SectionLoader(LoadOne), Restorer(st), secs, Parts(secs, st), st) &&
            Agrees(Restorer(st), secs, st, D, LevelCount)
  {
    var secs := LevelSections(cfg, hellfire, town);
    LevelSectionsShape(cfg, hellfire, town);
    LevelShapedTown(st, cfg, hellfire, town);
    LevelShapedTown(D, cfg, hellfire, town);
    LoadsBack(st, D, secs, LevelIndex);
  }

  /** The load of LoadLevel, the first LoadCount sections, from bytes that
      hold the parts. */
  lemma {:induction false} LevelLoads(ls: SectionLoad, rs: SectionRestore, secs: seq<Section>, ps: seq<Part>, st: Store,
                                      D: Store, bs: seq<byte>)
    requires LoadsParts(ls, rs, secs, ps, st) && |secs| == LevelCount && Agrees(rs, secs, st, D, LevelCount)
    requires PartsAt(ps, bs, 0, LevelCount)
    ensures LoadRange(ls, secs, D, Reader(true, bs, 0), 0, LoadCount).0 == RestoreUpTo(rs, secs, D, LoadCount)
  {
    var r := Reader(true, bs, 0);
    LoadUpToSplit(ls, secs, D, r, 0, LoadCount);
    LoadUpToMatches(ls, rs, secs, ps, st, D, r, LoadCount);
  }

  /** SaveLevel's blob loaded by LoadLevel of the same version, into
      globals whose leveltype is the saved one's, gives back what the codecs
      restore of every section but dMissile, and dMissile cleared outside
      town. */
  lemma {:induction false} LevelRoundTrip(files: map<string, seq<byte>>, name: string, st: Store, D: Store, hellfire: bool,
                                          cfg: Config, cap: nat, alloc: seq<byte>)
    requires cap <= |alloc| && LevelReady(st, hellfire, cfg, cap) && IsTown(D) == IsTown(st)
    requires ShapedFor(st, LevelSections(cfg, hellfire, false)) && ShapedFor(D, LevelSections(cfg, hellfire, false))
    ensures LevelFits(st, hellfire, cfg, cap, alloc)
    ensures LoadLevelFrom(files[name := LevelBlob(st, hellfire, cfg, cap, alloc)], name, hellfire, cfg, D) ==
            LevelRead(RestoredLevel(st, D, hellfire, cfg))
  {
    LevelBlobHolds(st, hellfire, cfg, cap, alloc);
    LevelLoadsBlob(files, name, LevelBlob(st, hellfire, cfg, cap, alloc), st, D, hellfire, cfg);
  }

  // ---------------------------------------------------------------------
  // What comes back

  /** The facts about the saved section list that the corollaries below
      start from. */
  lemma {:induction false} LevelReloading(st: Store, D: Store, hellfire: bool, cfg: Config)
    requires ShapedFor(st, LevelSections(cfg, hellfire, false)) && ShapedFor(D, LevelSections(cfg, hellfire, false))
    ensures var secs := LevelSections(cfg, hellfire, IsTown(st));
            Indexed(secs, LevelIndex) && Alone(secs, MissileSlot, LoadCount) && ShapedFor(st, secs) && ShapedFor(D, secs)
  {
    LevelIndexed(cfg, hellfire, IsTown(st));
    MissilesLast(cfg, hellfire, IsTown(st));
    LevelShapedTown(st, cfg, hellfire, IsTown(st));
    LevelShapedTown(D, cfg, hellfire, IsTown(st));
  }

  /** Every fixed-length section LoadLevel reads comes back as its codec
      restores it. */
  lemma {:induction false} LevelRunReloaded(st: Store, D: Store, hellfire: bool, cfg: Config, i: nat, idx: nat)
    requires ShapedFor(st, LevelSections(cfg, hellfire, false)) && ShapedFor(D, LevelSections(cfg, hellfire, false))
    requires i < LoadCount && LevelSections(cfg, hellfire, IsTown(st))[i].Run?
    requires idx < |LevelSections(cfg, hellfire, IsTown(st))[i].cs|
    ensures var sec := LevelSections(cfg, hellfire, IsTown(st))[i];
            var s, c := sec.slot, sec.cs[idx];
            Valid(c) && Rec(RestoredLevel(st, D, hellfire, cfg), s, idx) == Expected(c, Rec(st, s, idx), Rec(D, s, idx))
  {
    LevelReloading(st, D, hellfire, cfg);
    RunBack(st, D, LevelSections(cfg, hellfire, IsTown(st)), IsTown(st), cfg.lim, i, idx);
  }

  lemma {:induction false} RunBack(st: Store, D: Store, secs: seq<Section>, town: bool, lim: Limits, i: nat, idx: nat)
    requires |secs| == LevelCount && SectionsValid(secs) && Indexed(secs, LevelIndex) && Alone(secs, MissileSlot, LoadCount)
    requires ShapedFor(st, secs) && ShapedFor(D, secs)
    requires i < LoadCount && secs[i].Run? && idx < |secs[i].cs|
    ensures var s, c := secs[i].slot, secs[i].cs[idx];
            Valid(c) && Rec(RestoredFrom(st, D, secs, town, lim), s, idx) == Expected(c, Rec(st, s, idx), Rec(D, s, idx))
  {
    IndexedAlone(secs, LevelIndex, i);
    RunKept(st, D, secs, i, idx, LoadCount);
    var sl := secs[i].slot;
    assert sl != MissileSlot;
    var st1 := RestoreUpTo(Restorer(st), secs, D, LoadCount);
    assert Pool(RestoredFrom(st, D, secs, town, lim), sl) == Pool(st1, sl) by {
      if !town {
        assert Pool(ClearMissiles(st1, lim), sl) == Pool(st1, sl);
      }
    }
  }

  /** The three counts and itemactive come back exactly, and outside town
      monstactive and objectactive too. */
  lemma {:induction false} LevelKeysReloaded(st: Store, D: Store, hellfire: bool, cfg: Config, k: nat)
    requires ShapedFor(st, LevelSections(cfg, hellfire, false)) && ShapedFor(D, LevelSections(cfg, hellfire, false))
    requires k in {1, 2, 3, 4, 6, 9} && !(IsTown(st) && k in {4, 6})
    ensures First(RestoredLevel(st, D, hellfire, cfg), LevelSource(k)) == First(st, LevelSource(k))
  {
    LevelReloading(st, D, hellfire, cfg);
    KeyOf(cfg, hellfire, IsTown(st), k, LoadCount);
    KeyBack(st, D, LevelSections(cfg, hellfire, IsTown(st)), IsTown(st), cfg.lim, LevelSource(k));
  }

  lemma {:induction false} KeyBack(st: Store, D: Store, secs: seq<Section>, town: bool, lim: Limits, s: nat)
    requires |secs| == LevelCount && ShapedFor(st, secs) && ShapedFor(D, secs)
    requires KeyIn(secs, LevelIndex, s, LoadCount) && Alone(secs, MissileSlot, LoadCount)
    ensures First(RestoredFrom(st, D, secs, town, lim), s) == First(st, s)
  {
    KeyRestored(st, D, secs, LevelIndex, s, LoadCount);
  }

  /** dFlags comes back with its volatile bits cleared, in town too. */
  lemma {:induction false} LevelFlagsReloaded(st: Store, D: Store, hellfire: bool, cfg: Config)
    requires ShapedFor(st, LevelSections(cfg, hellfire, false)) && ShapedFor(D, LevelSections(cfg, hellfire, false))
    ensures var x, n := First(st, 30), cfg.lim.dunX * cfg.lim.dunY;
            |x| == n && First(RestoredLevel(st, D, hellfire, cfg), 30) == Grid.Written(x, true)
  {
    var lim := cfg.lim;
    var secs := LevelSections(cfg, hellfire, IsTown(st));
    assert secs[12] == GridOf(30, U8, lim.dunX, lim.dunY, true) by {
      assert secs[12] == GameSection(30, cfg, hellfire, IsTown(st));
    }
    LevelRunReloaded(st, D, hellfire, cfg, 12, 0);
    LevelReloading(st, D, hellfire, cfg);
    assert RunSized(st, secs[12]) && RunSized(D, secs[12]);
    Grid.GridExpected(U8, lim.dunX, lim.dunY, true, First(st, 30), First(D, 30));
  }

  /** dMissile is never read: outside town every cell becomes 0, and in
      town it is left as it was. */
  lemma {:induction false} MissilesReloaded(st: Store, D: Store, hellfire: bool, cfg: Config)
    requires ShapedFor(D, LevelSections(cfg, hellfire, false))
    ensures !IsTown(st) ==> First(RestoredLevel(st, D, hellfire, cfg), MissileSlot) == Grid.Zeros(DunCells(cfg.lim))
    ensures IsTown(st) ==> Pool(RestoredLevel(st, D, hellfire, cfg), MissileSlot) == Pool(D, MissileSlot)
  {
    var full := LevelSections(cfg, hellfire, false);
    assert full[LoadCount] == GridOf(39, U8, cfg.lim.dunX, cfg.lim.dunY, false) by {
      assert full[LoadCount] == GameSection(39, cfg, hellfire, false);
    }
    assert RunSized(D, full[LoadCount]);
    assert Sized(D, MissileSlot, 0, full[LoadCount].cs[0]);
    assert 0 < |Pool(D, MissileSlot)|;
    MissilesLast(cfg, hellfire, IsTown(st));
    MissilesBack(st, D, LevelSections(cfg, hellfire, IsTown(st)), IsTown(st), cfg.lim);
  }

  /** dMissile is the last section, and the only one that fills its slot. */
  lemma {:induction false} MissilesLast(cfg: Config, hellfire: bool, town: bool)
    ensures Alone(LevelSections(cfg, hellfire, town), MissileSlot, LoadCount)
  {
    var secs := LevelSections(cfg, hellfire, town);
    LevelIndexed(cfg, hellfire, town);
    IndexedAlone(secs, LevelIndex, LoadCount);
    assert secs[LoadCount].slot == SlotOf(39);
  }

  lemma {:induction false} MissilesBack(st: Store, D: Store, secs: seq<Section>, town: bool, lim: Limits)
    requires |secs| == LevelCount && Alone(secs, MissileSlot, LoadCount)
    ensures !town && 0 < |Pool(D, MissileSlot)| ==> First(RestoredFrom(st, D, secs, town, lim), MissileSlot) == Grid.Zeros(DunCells(lim))
    ensures town ==> Pool(RestoredFrom(st, D, secs, town, lim), MissileSlot) == Pool(D, MissileSlot)
  {
    PoolKept(secs, st, D, MissileSlot, 0, LoadCount);
  }
}

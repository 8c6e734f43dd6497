/** The game file (SaveGame and LoadGame in Source/loadsave.cpp).

    SaveGame writes a four-byte tag and then, global after global, the
    state of the game: where the player is, the view, the counts, the
    level seeds, the player, the quests, the portals, the monster, missile,
    object, light and vision pools with their tables, the items, the unique
    item flags, the dungeon grids, the smith's premium items and the
    automap settings. The pools and grids of a dungeon level are written
    only outside town. LoadGame reads the same globals back in the same
    order. Here each global is a slot of a Store and each loop of the two
    functions a Section (sections.dfy); section i fills slot i, except the
    second dLight grid, which fills slot 29 again.

    The sizes of the pools and grids (MAXMONSTERS, MAXDUNX, ...), the
    player's dimensions, the tables the save and the load consult
    (ToBlkTbl, gnLevelTypeTbl, the item availability test) and the light
    id of the player are declared outside Source/loadsave.cpp and are
    parameters (Config), not slots of the store. gnLevelTypeTbl is the one
    table cfg.levelType: SaveGame writes its entries after the seeds,
    LoadGame skips them in the file and reads the parameter instead. */
module Game {
  import opened Wire
  import opened Cursor
  import opened Layout
  import opened Codec
  import opened Header
  import opened Sections
  import opened Files
  import Items
  import Monsters
  import Records
  import Quests
  import Player
  import Grid

  /** MAXMONSTERS, MAXMISSILES, MAXOBJECTS, MAXLIGHTS, MAXITEMS, MAXPORTAL,
      MAXDUNX, MAXDUNY, DMAXX and DMAXY. */
  datatype Limits = Limits(monsters: nat, missiles: nat, objects: nat, lights: nat, items: nat, portals: nat,
                           dunX: nat, dunY: nat, mapX: nat, mapY: nat)

  /** What the game file's layout depends on besides the version: the
      limits, the player's dimensions, ToBlkTbl, the item availability
      test of the item codec, the player's light id (plr[myplr]._plid) and
      gnLevelTypeTbl. */
  datatype Config = Config(lim: Limits, dims: Player.Dims, toBlk: nat -> nat, avail: int -> bool,
                           plid: int, levelType: int -> int)

  const GameName: string := "game"

  /** The number of sections, and of those read before the town test. */
  const GameCount: nat := 45
  const HeadCount: nat := 6

  const LevelSlot: nat := 0
  const PlayerSlot: nat := 7

  /** DTYPE_TOWN, DIFF_NORMAL and DIFF_HELL. */
  const DTYPE_TOWN: int := 0
  const DIFF_NORMAL: int := 0
  const DIFF_HELL: int := 2

  /** The highest level of the base game. */
  const LastBaseLevel: int := 17

  /** The number of entries of UniqueItemFlag. */
  const UniqueFlags: nat := 128

  // ---------------------------------------------------------------------
  // The records of the game file that belong to no other module

  /** setlevel, setlvlnum, currlevel and leveltype. */
  function LevelLayout(): Layout
  {
    [Field(Bool8), Field(BE32), Field(BE32), Field(BE32)]  // setlevel, setlvlnum, currlevel, leveltype
  }

  /** LoadGame's `if (!setlevel) leveltype = gnLevelTypeTbl[currlevel]`. */
  function LevelFix(rec: Record, levelType: int -> int): (x: Record)
    ensures |x| == |rec|
  {
    if |rec| == 4 && rec[0] == Num(0) then rec[3 := Num(Pattern32(levelType(Signed32(NumOf(rec[2])))))] else rec
  }

  function LevelCodec(levelType: int -> int): Codec
  {
    var L := LevelLayout();
    Codec(L, L, L, (x: Arg) => x.r, (d: Arg) => d.r, (rec: Arg, d: Arg) => LevelFix(rec.r, levelType))
  }

  /** The level record comes back as saved, with leveltype recomputed for
      a regular level. */
  lemma {:induction false} LevelExpected(levelType: int -> int, x: Record, dest: Record)
    requires |x| == 4 && |dest| == 4
    ensures Valid(LevelCodec(levelType)) && Expected(LevelCodec(levelType), x, dest) == LevelFix(x, levelType)
  {
    var c := LevelCodec(levelType);
    MergeNoSkip(c.mem, x, dest);
  }

  /** ViewX, ViewY, invflag and chrflag. */
  function ViewLayout(): Layout
  {
    [Field(BE32), Field(BE32), Field(Bool8), Field(Bool8)]  // ViewX, ViewY, invflag, chrflag
  }

  /** One entry of glSeedTbl and gnLevelTypeTbl: SaveGame writes both,
      LoadGame reads the seed and skips the level type. In memory the
      entry is the seed alone: gnLevelTypeTbl is the table of the Config,
      which loading never changes, and t is its entry. */
  function SeedLayout(): Layout
  {
    [Field(BE32), Field(BE32)]  // glSeedTbl, gnLevelTypeTbl
  }

  function SeedCodec(t: int): Codec
  {
    Codec(Word(), SeedLayout(), [Field(BE32), Field(Skip(4))],  // glSeedTbl, gnLevelTypeTbl
          (x: Arg) => x.r + [Num(Pattern32(t))], (d: Arg) => d.r + [Num(0)],
          (rec: Arg, d: Arg) => if |rec.r| == 2 then rec.r[..1] else d.r)
  }

  lemma {:induction false} SeedCodecValid(t: int)
    ensures Valid(SeedCodec(t))
  {
    var c := SeedCodec(t);
    assert Coarsens(c.load, c.save) by {
      assert Width(c.save[1].kind) == 4;
    }
    forall x | WellFormed(c.mem, x) ensures WellFormed(c.save, c.toWire(Arg(x))) {
      assert Fits(c.save[1].kind, Num(Pattern32(t)));
    }
  }

  /** A seed comes back exactly; the level type written beside it is not
      read. */
  lemma {:induction false} SeedExpected(t: int, x: Record, dest: Record)
    requires |x| == 1 && |dest| == 1
    ensures Valid(SeedCodec(t)) && Expected(SeedCodec(t), x, dest) == x
  {
    SeedCodecValid(t);
    var c := SeedCodec(t);
    var m := Merge(c.load, c.toWire(Arg(x)), c.view(Arg(dest)));
    assert m[0] == x[0];
  }

  /** What SaveGame writes for entry i: the seed, then gnLevelTypeTbl[i]
      as a 32-bit pattern. */
  lemma {:induction false} SeedWritten(t: int, x: Record)
    requires |x| == 1
    ensures SeedCodec(t).toWire(Arg(x)) == [x[0], Num(Pattern32(t))]
  {
  }

  /** A scalar written with writeBE<Uint32> (or writeByte for a flag). */
  function Word(): Layout
  {
    [Field(BE32)]
  }

  function Flag(): Layout
  {
    [Field(Bool8)]
  }

  /** A table of n entries written with writeByte or writeBE<Uint32>. */
  function Bytes8(n: nat): Layout
  {
    Repeat(Field(U8), n)
  }

  function Words(n: nat): Layout
  {
    Repeat(Field(BE32), n)
  }

  /** A w by h grid in slot s. */
  function GridOf(s: nat, k: Kind, w: nat, h: nat, mask: bool): (sec: Section)
    requires Grid.GridKind(k)
    ensures sec.slot == s && SectionValid(sec)
  {
    Grid.GridCodecValid(k, w, h, mask);
    Run(s, [Grid.GridCodec(k, w, h, mask)])
  }

  // ---------------------------------------------------------------------
  // The sections

  /** The slot section i fills. */
  function SlotOf(i: nat): nat
  {
    if i == 36 then 29 else i
  }

  /** The sections SaveGame writes only outside town. */
  predicate Dungeon(i: nat)
  {
    11 <= i <= 24 || 33 <= i <= 39
  }

  /** The scalars and tables that give a counted section its count and
      its indices. */
  predicate KeySlot(s: nat)
  {
    s in {2, 3, 4, 5, 11, 13, 16, 19, 20, 23, 25}
  }

  /** Slot s is a key written before section i, and outside town only if
      section i is. */
  predicate KeyBefore(s: nat, i: nat)
  {
    KeySlot(s) && s < i && (Dungeon(i) || !Dungeon(s))
  }

  /** A counted section takes its count and its indices from keys written
      before it. */
  predicate PicksFromKeys(i: nat, sec: Section)
    requires sec.Picked?
  {
    KeyBefore(sec.count, i) && (sec.pick.ByIds? ==> KeyBefore(sec.pick.table, i))
  }

  /** The loops of SaveGame and LoadGame in order, for a dungeon level. */
  function FullSection(i: nat, cfg: Config, hellfire: bool): (sec: Section)
    requires i < GameCount
    ensures sec.slot == SlotOf(i) && SectionValid(sec)
    ensures sec.Joined? <==> i == 8
    ensures sec.Joined? ==> sec.globals == GlobalsSlot
    ensures sec.Picked? ==> PicksFromKeys(i, sec) && i in {12, 15, 18, 21, 24, 27}
  {
    if i < HeadCount then HeadSection(i, cfg)
    else if i < 11 then HeroSection(i, cfg, hellfire)
    else if i < 19 then PoolSection(i, cfg)
    else if i < 29 then LightSection(i, cfg, hellfire)
    else if i < 40 then GridSection(i, cfg.lim)
    else TailSection(i, cfg, hellfire)
  }

  /** From setlevel to nobjects: what LoadGame reads before the Hellfire
      level test. */
  function HeadSection(i: nat, cfg: Config): (sec: Section)
    requires i < HeadCount
    ensures sec.slot == i && SectionValid(sec) && sec.Run?
  {
    if i == 0 then Run(0, [LevelCodec(cfg.levelType)])
    else if i == 1 then Table(1, ViewLayout())
    else if i == 2 then Table(2, Word())  // nummonsters
    else if i == 3 then Table(3, Word())  // numitems
    else if i == 4 then Table(4, Word())  // nummissiles
    else Table(5, Word())  // nobjects
  }

  /** From glSeedTbl to monstkills. */
  function HeroSection(i: nat, cfg: Config, hellfire: bool): (sec: Section)
    requires HeadCount <= i < 11
    ensures sec.slot == i && SectionValid(sec)
    ensures if i == 8 then sec.Joined? && sec.globals == GlobalsSlot else sec.Run?
  {
    if i == 6 then SeedSection(cfg.levelType, hellfire)
    else if i == 7 then PlayerSection(cfg, hellfire)
    else if i == 8 then QuestSection(hellfire)
    else if i == 9 then Run(9, Copies(Records.PortalCodec(), cfg.lim.portals))
    else Table(10, Words(cfg.lim.monsters))  // monstkills
  }

  /** glSeedTbl and gnLevelTypeTbl, giNumberOfLevels entries. The store
      holds the seeds; the level types are written from levelType. */
  function SeedSection(levelType: int -> int, hellfire: bool): (sec: Section)
    ensures sec.slot == 6 && SectionValid(sec) && sec.Run?
    ensures |sec.cs| == TablesFor(hellfire).levels && forall i :: 0 <= i < |sec.cs| ==> sec.cs[i] == SeedCodec(levelType(i))
  {
    SeedCodecsValid(levelType, TablesFor(hellfire).levels);
    Run(6, SeedCodecs(levelType, TablesFor(hellfire).levels))
  }

  /** The codecs of the first n entries. */
  function SeedCodecs(levelType: int -> int, n: nat): (cs: Schema)
    ensures |cs| == n && forall i :: 0 <= i < n ==> cs[i] == SeedCodec(levelType(i))
  {
    seq(n, i requires 0 <= i => SeedCodec(levelType(i)))
  }

  lemma {:induction false} SeedCodecsValid(levelType: int -> int, n: nat)
    ensures AllValid(SeedCodecs(levelType, n))
  {
    var cs := SeedCodecs(levelType, n);
    forall i | 0 <= i < n ensures Valid(cs[i]) {
      SeedCodecValid(levelType(i));
    }
  }

  /** SavePlayer and LoadPlayer for myplr. */
  function PlayerSection(cfg: Config, hellfire: bool): (sec: Section)
    ensures sec.slot == PlayerSlot && SectionValid(sec)
  {
    var item := Items.ItemCodec(hellfire, cfg.avail);
    Items.ItemCodecValid(hellfire, cfg.avail);
    Player.PlayerSchemaValid(cfg.dims, hellfire, cfg.toBlk, item);
    Run(PlayerSlot, Player.PlayerSchema(cfg.dims, hellfire, cfg.toBlk, item))
  }

  /** The single record of ReturnLvlX, ReturnLvlY, ReturnLvl, ReturnLvlT
      and DoomQuestState, which SaveQuest writes after every quest and
      LoadQuest sets again after every quest. */
  const GlobalsSlot: nat := 45

  /** The giNumberQuests quests, each with the five globals. */
  function QuestSection(hellfire: bool): (sec: Section)
    ensures sec.slot == 8 && SectionValid(sec) && sec.Joined? && sec.globals == GlobalsSlot
  {
    Quests.QuestCodecValid(hellfire);
    Joined(8, Copies(Quests.QuestCodec(hellfire), TablesFor(hellfire).quests), Quests.ReturnSlot, GlobalsSlot)
  }

  /** The monster, missile and object pools with their tables. */
  function PoolSection(i: nat, cfg: Config): (sec: Section)
    requires 11 <= i < 19
    ensures sec.slot == i && SectionValid(sec) && !sec.Joined?
    ensures sec.Picked? ==> PicksFromKeys(i, sec) && i in {12, 15, 18}
  {
    var lim := cfg.lim;
    if i == 11 then Table(11, Words(lim.monsters))  // monstactive
    else if i == 12 then MonsterSection(cfg.plid)
    else if i == 13 then Table(13, Bytes8(lim.missiles))  // missileactive
    else if i == 14 then Table(14, Bytes8(lim.missiles))  // missileavail
    else if i == 15 then Picked(15, Records.MissileCodec(), 4, ByIds(13))
    else if i == 16 then Table(16, Bytes8(lim.objects))  // objectactive
    else if i == 17 then Table(17, Bytes8(lim.objects))  // objectavail
    else Picked(18, Records.ObjectCodec(), 5, ByIds(16))
  }

  /** nummonsters monsters, at the indices monstactive lists. */
  function MonsterSection(plid: int): (sec: Section)
    ensures sec.slot == 12 && SectionValid(sec) && sec.Picked? && sec.count == 2 && sec.pick == ByIds(11)
  {
    Monsters.MonsterCodecValid(plid);
    Picked(12, Monsters.MonsterCodec(plid), 2, ByIds(11))
  }

  /** The lights, the visions, the items and UniqueItemFlag. */
  function LightSection(i: nat, cfg: Config, hellfire: bool): (sec: Section)
    requires 19 <= i < 29
    ensures sec.slot == i && SectionValid(sec) && !sec.Joined?
    ensures sec.Picked? ==> PicksFromKeys(i, sec) && i in {21, 24, 27}
  {
    var lim := cfg.lim;
    if i == 19 then Table(19, Word())  // numlights
    else if i == 20 then Table(20, Bytes8(lim.lights))  // lightactive
    else if i == 21 then Picked(21, Records.LightCodec(), 19, ByIds(20))
    else if i == 22 then Table(22, Word())  // visionid
    else if i == 23 then Table(23, Word())  // numvision
    else if i == 24 then Picked(24, Records.LightCodec(), 23, InOrder)
    else if i == 25 then Table(25, Bytes8(lim.items))  // itemactive
    else if i == 26 then Table(26, Bytes8(lim.items))  // itemavail
    else if i == 27 then ItemSection(cfg.avail, hellfire)
    else Table(28, Repeat(Field(Bool8), UniqueFlags))  // UniqueItemFlag
  }

  /** numitems items, at the indices itemactive lists. */
  function ItemSection(avail: int -> bool, hellfire: bool): (sec: Section)
    ensures sec.slot == 27 && SectionValid(sec) && sec.Picked? && sec.count == 3 && sec.pick == ByIds(25)
  {
    Items.ItemCodecValid(hellfire, avail);
    Picked(27, Items.ItemCodec(hellfire, avail), 3, ByIds(25))
  }

  /** The grids; dLight is written twice, the second time outside town
      only. */
  function GridSection(i: nat, lim: Limits): (sec: Section)
    requires 29 <= i < 40
    ensures sec.slot == SlotOf(i) && SectionValid(sec) && sec.Run?
  {
    var w, h := lim.dunX, lim.dunY;
    if i == 29 then GridOf(29, U8, w, h, false)  // dLight
    else if i == 30 then GridOf(30, U8, w, h, true)  // dFlags
    else if i == 31 then GridOf(31, U8, w, h, false)  // dPlayer
    else if i == 32 then GridOf(32, U8, w, h, false)  // dItem
    else if i == 33 then GridOf(33, BE32, w, h, false)  // dMonster
    else if i == 34 then GridOf(34, U8, w, h, false)  // dDead
    else if i == 35 then GridOf(35, U8, w, h, false)  // dObject
    else if i == 36 then GridOf(29, U8, w, h, false)  // dLight
    else if i == 37 then GridOf(37, U8, w, h, false)  // dPreLight
    else if i == 38 then GridOf(38, Bool8, lim.mapX, lim.mapY, false)  // automapview
    else GridOf(39, U8, w, h, false)  // dMissile
  }

  /** The smith's premium items and the automap settings. */
  function TailSection(i: nat, cfg: Config, hellfire: bool): (sec: Section)
    requires 40 <= i < GameCount
    ensures sec.slot == i && SectionValid(sec) && sec.Run?
  {
    if i == 40 then Table(40, Word())  // numpremium
    else if i == 41 then Table(41, Word())  // premiumlevel
    else if i == 42 then Items.ItemCodecValid(hellfire, cfg.avail); Run(42, Copies(Items.ItemCodec(hellfire, cfg.avail), TablesFor(hellfire).premium))
    else if i == 43 then Table(43, Flag())  // automapflag
    else Table(44, Word())  // AutoMapScale
  }

  /** In town the dungeon loops are not run: their sections write nothing. */
  function GameSection(i: nat, cfg: Config, hellfire: bool, town: bool): (sec: Section)
    requires i < GameCount
    ensures sec.slot == SlotOf(i) && SectionValid(sec)
    ensures sec.Joined? <==> i == 8
    ensures sec.Joined? ==> sec.globals == GlobalsSlot
  {
    if town && Dungeon(i) then Run(SlotOf(i), []) else FullSection(i, cfg, hellfire)
  }

  function GameSections(cfg: Config, hellfire: bool, town: bool): (secs: seq<Section>)
    ensures |secs| == GameCount
    ensures forall i :: 0 <= i < GameCount ==> secs[i] == GameSection(i, cfg, hellfire, town)
    ensures SectionsValid(secs)
  {
    seq(GameCount, i requires 0 <= i < GameCount => GameSection(i, cfg, hellfire, town))
  }

  // ---------------------------------------------------------------------
  // The town test and the difficulty

  /** leveltype == DTYPE_TOWN: the dungeon loops are skipped. */
  predicate IsTown(st: Store)
  {
    Entry(st, LevelSlot, 3) == DTYPE_TOWN
  }

  /** Where pDifficulty sits in the player's tail. */
  const DifficultyAt: nat := 6

  /** The player's pDifficulty as the int it is stored in. */
  function StoredDifficulty(st: Store, d: Player.Dims): int
  {
    var x := Rec(st, PlayerSlot, Player.TailAt(d));
    if |x| == Player.TailLen then Signed32(NumOf(x[DifficultyAt])) else DIFF_NORMAL
  }

  /** gnDifficulty after LoadGame: pDifficulty, or DIFF_NORMAL when it is
      not a difficulty. */
  function Difficulty(st: Store, d: Player.Dims): (g: int)
    ensures DIFF_NORMAL <= g <= DIFF_HELL
    ensures DIFF_NORMAL <= StoredDifficulty(st, d) <= DIFF_HELL ==> g == StoredDifficulty(st, d)
    ensures !(DIFF_NORMAL <= StoredDifficulty(st, d) <= DIFF_HELL) ==> g == DIFF_NORMAL
  {
    var v := StoredDifficulty(st, d);
    if v < DIFF_NORMAL || v > DIFF_HELL then DIFF_NORMAL else v
  }

  /** SaveGame's `plr[myplr].pDifficulty = gnDifficulty`. */
  function WithDifficulty(st: Store, g: int, d: Player.Dims): (st': Store)
    ensures |st'| == |st|
    ensures forall s :: s != PlayerSlot ==> Pool(st', s) == Pool(st, s)
    ensures forall k :: k != Player.TailAt(d) ==> Rec(st', PlayerSlot, k) == Rec(st, PlayerSlot, k)
    ensures var x := Rec(st, PlayerSlot, Player.TailAt(d));
            Rec(st', PlayerSlot, Player.TailAt(d)) == if |x| == Player.TailLen then x[DifficultyAt := Num(Pattern32(g))] else x
  {
    var k := Player.TailAt(d);
    var x := Rec(st, PlayerSlot, k);
    if |x| == Player.TailLen then st[PlayerSlot := st[PlayerSlot][k := x[DifficultyAt := Num(Pattern32(g))]]] else st
  }

  // ---------------------------------------------------------------------
  // LoadGame and SaveGame

  /** The app_fatal calls of LoadGame, the last one LoadLevel's when a
      level to convert cannot be read. */
  datatype Failure = NoArchive | InvalidSave | HellfireOnlyLevel | NoLevelFile

  /** The globals LoadGame leaves, gnDifficulty and gbIsHellfireSaveGame;
      or the reason it stops. */
  datatype Outcome = Loaded(st: Store, difficulty: int, hellfireSave: bool) | Failed(why: Failure)

  /** What LoadGame reads when the save is of the running version, so
      that nothing is converted (the archive is files; spawn is gbIsSpawn,
      hellfire gbIsHellfire; D holds the globals before the call): the tag,
      the sections before the Hellfire level test, then the rest with the
      dungeon loops run only outside town. The layout is that of the save's
      version. LoadGame itself, with the conversion, is in the module
      Convert. */
  ghost function LoadGameFrom(files: map<string, seq<byte>>, spawn: bool, hellfire: bool, cfg: Config, D: Store): Outcome
  {
    var r := BlobReader(files, GameName);
    if !CanRead(r, 1) then Failed(NoArchive)
    else
      var (magic, r1) := ReadNum(r, LittleEndian, 4);
      var v := IsHeaderValid(magic, spawn);
      if !v.valid then Failed(InvalidSave)
      else
        var ls := SectionLoader(LoadOne);
        var (st1, r2) := LoadRange(ls, GameSections(cfg, v.hellfireSave, false), D, r1, 0, HeadCount);
        if !hellfire && Entry(st1, LevelSlot, 2) > LastBaseLevel then Failed(HellfireOnlyLevel)
        else
          var st2 := LoadRange(ls, GameSections(cfg, v.hellfireSave, IsTown(st1)), st1, r2, HeadCount, GameCount).0;
          Loaded(st2, Difficulty(st2, cfg.dims), v.hellfireSave)
  }

  /** The writer of SaveGame after the tag and every section. */
  ghost function GameWriter(st: Store, spawn: bool, hellfire: bool, cfg: Config, cap: nat, alloc: seq<byte>): Writer
    requires cap <= |alloc|
  {
    var w := WriteNum(Writer(true, alloc, 0, cap), LittleEndian, 4, SaveTag(spawn, hellfire));
    SaveParts(SaveOne, Parts(GameSections(cfg, hellfire, IsTown(st)), st), w, GameCount)
  }

  /** Every record SaveGame writes is well formed, and the tag and the
      records fit the buffer of cap bytes. */
  ghost predicate GameReady(st: Store, hellfire: bool, cfg: Config, cap: nat)
  {
    var secs := GameSections(cfg, hellfire, IsTown(st));
    (forall j :: 0 <= j < GameCount ==> SectionWellFormed(secs[j], st)) &&
    4 + PartsOffset(Parts(secs, st), GameCount) <= cap
  }

  /** What SaveGame writes ends within the allocation: the source's
      FILEBUFF is taken to be large enough. */
  ghost predicate GameFits(st: Store, spawn: bool, hellfire: bool, cfg: Config, cap: nat, alloc: seq<byte>)
    requires cap <= |alloc|
  {
    GameWriter(st, spawn, hellfire, cfg, cap, alloc).ptr <= |alloc|
  }

  /** The blob SaveGame flushes: the bytes up to the position. */
  ghost function GameBlob(st: Store, spawn: bool, hellfire: bool, cfg: Config, cap: nat, alloc: seq<byte>): seq<byte>
    requires cap <= |alloc|
  {
    Contents(GameWriter(st, spawn, hellfire, cfg, cap, alloc))
  }

  // ---------------------------------------------------------------------
  // The shape of the section list

  /** In the game file the key of slot s is written by section s. */
  function GameKey(s: nat): nat
  {
    s
  }

  /** What the round trip uses of the game file's sections: they are
      valid, section i fills slot SlotOf(i), only the quests also write
      the globals slot, the first is the level record,
      and every counted section takes its count and indices from keys
      written before it. */
  ghost predicate GameLayout(secs: seq<Section>, cfg: Config)
  {
    |secs| == GameCount && SectionsValid(secs) &&
    (forall i :: 0 <= i < GameCount ==> secs[i].slot == SlotOf(i) && (secs[i].Joined? ==> i == 8 && secs[i].globals == GlobalsSlot)) &&
    secs[LevelSlot] == Run(LevelSlot, [LevelCodec(cfg.levelType)]) &&
    Keyed(secs, GameKey)
  }

  /** The keys are one-record tables that skip nothing. */
  lemma {:induction false} KeyTable(s: nat, cfg: Config, hellfire: bool)
    requires KeySlot(s)
    ensures IsKey(FullSection(s, cfg, hellfire))
  {
    if s < HeadCount {
      CountKey(s, cfg);
    } else if s < 19 {
      PoolKey(s, cfg);
    } else {
      LightKey(s, cfg, hellfire);
    }
  }

  lemma {:induction false} CountKey(s: nat, cfg: Config)
    requires 2 <= s < HeadCount
    ensures IsKey(HeadSection(s, cfg))
  {
  }

  lemma {:induction false} PoolKey(s: nat, cfg: Config)
    requires s in {11, 13, 16}
    ensures IsKey(PoolSection(s, cfg))
  {
  }

  lemma {:induction false} LightKey(s: nat, cfg: Config, hellfire: bool)
    requires s in {19, 20, 23, 25}
    ensures IsKey(LightSection(s, cfg, hellfire))
  {
  }

  /** In town as outside, the counted sections read keys that are written. */
  lemma {:induction false} PickedKeys(cfg: Config, hellfire: bool, town: bool, i: nat)
    requires i < GameCount && GameSections(cfg, hellfire, town)[i].Picked?
    ensures var secs := GameSections(cfg, hellfire, town);
            KeyIn(secs, GameKey, secs[i].count, i) && (secs[i].pick.ByIds? ==> KeyIn(secs, GameKey, secs[i].pick.table, i))
  {
    var secs := GameSections(cfg, hellfire, town);
    var sec := secs[i];
    assert sec == FullSection(i, cfg, hellfire);
    assert PicksFromKeys(i, sec);
    KeyWritten(cfg, hellfire, town, sec.count);
    if sec.pick.ByIds? {
      KeyWritten(cfg, hellfire, town, sec.pick.table);
    }
  }

  lemma {:induction false} KeyWritten(cfg: Config, hellfire: bool, town: bool, s: nat)
    requires KeySlot(s) && !(town && Dungeon(s))
    ensures IsKey(GameSections(cfg, hellfire, town)[s]) && Alone(GameSections(cfg, hellfire, town), s, s)
  {
    KeyTable(s, cfg, hellfire);
  }

  lemma {:induction false} GameSectionsLayout(cfg: Config, hellfire: bool, town: bool)
    ensures GameLayout(GameSections(cfg, hellfire, town), cfg)
  {
    var secs := GameSections(cfg, hellfire, town);
    forall i | 0 <= i < GameCount && secs[i].Picked?
      ensures KeyIn(secs, GameKey, secs[i].count, i) && (secs[i].pick.ByIds? ==> KeyIn(secs, GameKey, secs[i].pick.table, i))
    {
      PickedKeys(cfg, hellfire, town, i);
    }
    assert secs[LevelSlot] == HeadSection(0, cfg);
  }

  /** The sections LoadGame reads before the town test do not depend on
      it. */
  lemma {:induction false} HeadSame(cfg: Config, hellfire: bool, town: bool)
    ensures forall i :: 0 <= i < HeadCount ==> GameSections(cfg, hellfire, false)[i] == GameSections(cfg, hellfire, town)[i]
  {
  }

  // ---------------------------------------------------------------------
  // What the round trip needs of the stores

  /** A store in shape for a dungeon level is in shape for the town. */
  lemma {:induction false} ShapedTown(st: Store, cfg: Config, hellfire: bool, town: bool)
    requires ShapedFor(st, GameSections(cfg, hellfire, false))
    ensures ShapedFor(st, GameSections(cfg, hellfire, town))
  {
    var secs, full := GameSections(cfg, hellfire, town), GameSections(cfg, hellfire, false);
    forall i | 0 <= i < GameCount
      ensures RunSized(st, secs[i])
    {
      assert RunSized(st, full[i]);
    }
  }

  /** The level type LoadGame recomputes for a regular level
      (gnLevelTypeTbl[currlevel]) is the town exactly when leveltype is. */
  predicate TownKept(st: Store, levelType: int -> int)
  {
    var x := First(st, LevelSlot);
    |x| == 4 ==> (Signed32(NumOf(LevelFix(x, levelType)[3])) == DTYPE_TOWN) == IsTown(st)
  }

  /** Every slot but dLight's is filled by its own section alone. */
  lemma {:induction false} GameAlone(secs: seq<Section>, cfg: Config, s: nat)
    requires GameLayout(secs, cfg) && s < GameCount && s != 29 && s != 36
    ensures Alone(secs, s, s)
  {
  }

  /** After the first section, the level record is the saved one with
      leveltype recomputed for a regular level. */
  lemma {:induction false} LevelRestored(st: Store, D: Store, secs: seq<Section>, cfg: Config, j: nat)
    requires GameLayout(secs, cfg) && 0 < j <= GameCount && ShapedFor(st, secs) && ShapedFor(D, secs)
    ensures |First(st, LevelSlot)| == 4
    ensures First(RestoreUpTo(Restorer(st), secs, D, j), LevelSlot) == LevelFix(First(st, LevelSlot), cfg.levelType)
  {
    GameAlone(secs, cfg, LevelSlot);
    RunKept(st, D, secs, LevelSlot, 0, j);
    LevelExpected(cfg.levelType, First(st, 0), First(D, 0));
  }

  // ---------------------------------------------------------------------
  // The round trip of the game file

  /** The tag SaveGame writes fits the four bytes it is written in. */
  lemma {:induction false} TagFits(spawn: bool, hellfire: bool)
    ensures SaveTag(spawn, hellfire) < Pow256(4)
  {
    assert Pow256(4) == 256 * Pow256(3);
    assert Pow256(2) == 256 * Pow256(1);
  }

  /** After the tag and the parts, the bytes up to the position hold the
      tag at 0 and the parts from 4 on. */
  lemma {:induction false} TagThenParts(ps: seq<Part>, w0: Writer, v: nat)
    requires PartsWellFormed(ps) && WriterOk(w0) && w0.live && w0.ptr == 0 && v < Pow256(4)
    requires 4 + PartsOffset(ps, |ps|) <= w0.cap
    ensures var w := SaveParts(SaveOne, ps, WriteNum(w0, LittleEndian, 4, v), |ps|);
            var blob := Contents(w);
            w.ptr == 4 + PartsOffset(ps, |ps|) <= |w.buf| &&
            ReadNum(Reader(true, blob, 0), LittleEndian, 4) == (v, Reader(true, blob, 4)) &&
            PartsAt(ps, blob, 4, |ps|)
  {
    var w1 := WriteNum(w0, LittleEndian, 4, v);
    WriteReadNum(w0, LittleEndian, 4, v);
    assert w1.ptr == 4;
    PartsBlob(ps, w1);
    var w := SaveParts(SaveOne, ps, w1, |ps|);
    assert Contents(w)[0..4] == w1.buf[0..4] by {
      assert w.buf[..4] == w1.buf[..4];
    }
  }

  /** The two loads of LoadGame, before and after the town test, from
      bytes that hold the parts from 4 on: the first reads the head with
      the dungeon list secsF, which agrees with secs there; the second goes
      on with secs. */
  lemma {:induction false} GameLoads(ls: SectionLoad, rs: SectionRestore, secsF: seq<Section>, secs: seq<Section>,
                                     ps: seq<Part>, st: Store, D: Store, bs: seq<byte>)
    requires LoadsParts(ls, rs, secs, ps, st) && |secs| == GameCount && Agrees(rs, secs, st, D, GameCount)
    requires |secsF| == GameCount && forall i :: 0 <= i < HeadCount ==> secsF[i] == secs[i]
    requires PartsAt(ps, bs, 4, GameCount)
    ensures var r1 := Reader(true, bs, 4);
            var st1, r2 := RestoreUpTo(rs, secs, D, HeadCount), Reader(true, bs, 4 + PartsOffset(ps, HeadCount));
            LoadRange(ls, secsF, D, r1, 0, HeadCount) == (st1, r2) &&
            LoadRange(ls, secs, st1, r2, HeadCount, GameCount).0 == RestoreUpTo(rs, secs, D, GameCount)
  {
    HeadLoads(ls, rs, secsF, secs, ps, st, D, bs);
    var r1 := Reader(true, bs, 4);
    var st1, r2 := RestoreUpTo(rs, secs, D, HeadCount), Reader(true, bs, 4 + PartsOffset(ps, HeadCount));
    LoadUpToMatches(ls, rs, secs, ps, st, D, r1, HeadCount);
    assert LoadUpTo(ls, secs, D, r1, HeadCount) == (st1, r2);
    LoadUpToSplit(ls, secs, D, r1, HeadCount, GameCount);
    assert LoadUpTo(ls, secs, D, r1, GameCount) == LoadRange(ls, secs, st1, r2, HeadCount, GameCount);
    LoadUpToMatches(ls, rs, secs, ps, st, D, r1, GameCount);
  }

  /** The first of the two. */
  lemma {:induction false} HeadLoads(ls: SectionLoad, rs: SectionRestore, secsF: seq<Section>, secs: seq<Section>,
                                     ps: seq<Part>, st: Store, D: Store, bs: seq<byte>)
    requires LoadsParts(ls, rs, secs, ps, st) && |secs| == GameCount && Agrees(rs, secs, st, D, GameCount)
    requires |secsF| == GameCount && forall i :: 0 <= i < HeadCount ==> secsF[i] == secs[i]
    requires PartsAt(ps, bs, 4, GameCount)
    ensures LoadRange(ls, secsF, D, Reader(true, bs, 4), 0, HeadCount) ==
            (RestoreUpTo(rs, secs, D, HeadCount), Reader(true, bs, 4 + PartsOffset(ps, HeadCount)))
  {
    var r1 := Reader(true, bs, 4);
    LoadUpToSplit(ls, secsF, D, r1, 0, HeadCount);
    LoadUpToSame(ls, secsF, secs, D, r1, HeadCount);
    LoadUpToMatches(ls, rs, secs, ps, st, D, r1, HeadCount);
  }

  /** The level record after the head: currlevel is the saved one, and
      the town test gives what it gave on the saving side. */
  lemma {:induction false} HeadRestored(st: Store, D: Store, secs: seq<Section>, cfg: Config)
    requires GameLayout(secs, cfg) && ShapedFor(st, secs) && ShapedFor(D, secs) && TownKept(st, cfg.levelType)
    ensures var st1 := RestoreUpTo(Restorer(st), secs, D, HeadCount);
            Entry(st1, LevelSlot, 2) == Entry(st, LevelSlot, 2) && IsTown(st1) == IsTown(st)
  {
    LevelRestored(st, D, secs, cfg, HeadCount);
  }

  /** The globals a round trip of the game file leaves: the sections of
      the store, saved and loaded back into D. */
  ghost function Reloaded(st: Store, D: Store, hellfire: bool, cfg: Config): Store
  {
    RestoreUpTo(Restorer(st), GameSections(cfg, hellfire, IsTown(st)), D, GameCount)
  }

  /** The blob SaveGame flushes holds the tag at 0 and the parts of the
      sections from 4 on. */
  lemma {:induction false} GameBlobHolds(st: Store, spawn: bool, hellfire: bool, cfg: Config, cap: nat, alloc: seq<byte>)
    requires cap <= |alloc| && GameReady(st, hellfire, cfg, cap)
    ensures GameFits(st, spawn, hellfire, cfg, cap, alloc)
    ensures var blob := GameBlob(st, spawn, hellfire, cfg, cap, alloc);
            ReadNum(Reader(true, blob, 0), LittleEndian, 4) == (SaveTag(spawn, hellfire), Reader(true, blob, 4)) &&
            PartsAt(Parts(GameSections(cfg, hellfire, IsTown(st)), st), blob, 4, GameCount)
  {
    var secs := GameSections(cfg, hellfire, IsTown(st));
    var w0, tag := Writer(true, alloc, 0, cap), SaveTag(spawn, hellfire);
    PartsOfWellFormed(secs, st);
    TagFits(spawn, hellfire);
    TagThenParts(Parts(secs, st), w0, tag);
    SavePartsKeeps(Parts(secs, st), WriteNum(w0, LittleEndian, 4, tag), GameCount);
  }

  /** LoadGame on a blob that holds a tag of the build and the parts saved
      from st. */
  lemma {:induction false} GameLoadsBlob(files: map<string, seq<byte>>, blob: seq<byte>, st: Store, D: Store, spawn: bool,
                                         hellfire: bool, cfg: Config)
    requires ReadNum(Reader(true, blob, 0), LittleEndian, 4) == (SaveTag(spawn, hellfire), Reader(true, blob, 4))
    requires PartsAt(Parts(GameSections(cfg, hellfire, IsTown(st)), st), blob, 4, GameCount)
    requires ShapedFor(st, GameSections(cfg, hellfire, false)) && ShapedFor(D, GameSections(cfg, hellfire, false))
    requires TownKept(st, cfg.levelType)
    ensures var out := LoadGameFrom(files[GameName := blob], spawn, hellfire, cfg, D);
            var st' := Reloaded(st, D, hellfire, cfg);
            out == if !hellfire && Entry(st, LevelSlot, 2) > LastBaseLevel then Failed(HellfireOnlyLevel)
                   else Loaded(st', Difficulty(st', cfg.dims), hellfire)
  {
    hide FullSection;
    var town := IsTown(st);
    var secsF, secs := GameSections(cfg, hellfire, false), GameSections(cfg, hellfire, town);
    GameSectionsLayout(cfg, hellfire, town);
    ShapedTown(st, cfg, hellfire, town);
    ShapedTown(D, cfg, hellfire, town);
    HeadSame(cfg, hellfire, town);
    LoadsBack(st, D, secs, GameKey);
    SaveTagAccepted(spawn, hellfire);
    GameLoads(SectionLoader(LoadOne), Restorer(st), secsF, secs, Parts(secs, st), st, D, blob);
    HeadRestored(st, D, secs, cfg);
  }

  /** SaveGame then LoadGame on the same build: the tag is accepted with
      the version it was written with; a level beyond the base game stops a
      base-game load; otherwise every section comes back as its codec
      restores it, and the difficulty is the restored player's. */
  lemma {:induction false} GameRoundTrip(files: map<string, seq<byte>>, st: Store, D: Store, spawn: bool, hellfire: bool,
                                         cfg: Config, cap: nat, alloc: seq<byte>)
    requires cap <= |alloc| && GameReady(st, hellfire, cfg, cap) && TownKept(st, cfg.levelType)
    requires ShapedFor(st, GameSections(cfg, hellfire, false)) && ShapedFor(D, GameSections(cfg, hellfire, false))
    ensures var out := LoadGameFrom(files[GameName := GameBlob(st, spawn, hellfire, cfg, cap, alloc)], spawn, hellfire, cfg, D);
            var st' := Reloaded(st, D, hellfire, cfg);
            out == if !hellfire && Entry(st, LevelSlot, 2) > LastBaseLevel then Failed(HellfireOnlyLevel)
                   else Loaded(st', Difficulty(st', cfg.dims), hellfire)
  {
    GameBlobHolds(st, spawn, hellfire, cfg, cap, alloc);
    GameLoadsBlob(files, GameBlob(st, spawn, hellfire, cfg, cap, alloc), st, D, spawn, hellfire, cfg);
  }

  // ---------------------------------------------------------------------
  // What comes back

  /** The facts about the saved section list that the corollaries below
      start from. */
  lemma {:induction false} Reloading(st: Store, D: Store, hellfire: bool, cfg: Config)
    requires ShapedFor(st, GameSections(cfg, hellfire, false)) && ShapedFor(D, GameSections(cfg, hellfire, false))
    ensures var secs := GameSections(cfg, hellfire, IsTown(st));
            GameLayout(secs, cfg) && ShapedFor(st, secs) && ShapedFor(D, secs)
  {
    GameSectionsLayout(cfg, hellfire, IsTown(st));
    ShapedTown(st, cfg, hellfire, IsTown(st));
    ShapedTown(D, cfg, hellfire, IsTown(st));
  }

  /** Every fixed-length section but dLight's comes back as its codec
      restores it. */
  lemma {:induction false} RunReloaded(st: Store, D: Store, hellfire: bool, cfg: Config, i: nat, idx: nat)
    requires ShapedFor(st, GameSections(cfg, hellfire, false)) && ShapedFor(D, GameSections(cfg, hellfire, false))
    requires i < GameCount && i != 29 && i != 36
    requires GameSections(cfg, hellfire, IsTown(st))[i].Run? && idx < |GameSections(cfg, hellfire, IsTown(st))[i].cs|
    ensures var c := GameSections(cfg, hellfire, IsTown(st))[i].cs[idx];
            Valid(c) && Sized(st, i, idx, c) && Sized(D, i, idx, c) &&
            Rec(Reloaded(st, D, hellfire, cfg), i, idx) == Expected(c, Rec(st, i, idx), Rec(D, i, idx))
  {
    Reloading(st, D, hellfire, cfg);
    GameAlone(GameSections(cfg, hellfire, IsTown(st)), cfg, i);
    RunKept(st, D, GameSections(cfg, hellfire, IsTown(st)), i, idx, GameCount);
  }

  /** The counts and the index tables come back exactly, outside town all
      of them, in town those that are saved there. */
  lemma {:induction false} KeysReloaded(st: Store, D: Store, hellfire: bool, cfg: Config, s: nat)
    requires ShapedFor(st, GameSections(cfg, hellfire, false)) && ShapedFor(D, GameSections(cfg, hellfire, false))
    requires KeySlot(s) && !(IsTown(st) && Dungeon(s))
    ensures First(Reloaded(st, D, hellfire, cfg), s) == First(st, s)
  {
    Reloading(st, D, hellfire, cfg);
    KeyWritten(cfg, hellfire, IsTown(st), s);
    KeyRestored(st, D, GameSections(cfg, hellfire, IsTown(st)), GameKey, s, GameCount);
  }

  /** setlevel, setlvlnum and currlevel come back; leveltype is
      recomputed from currlevel for a regular level. */
  lemma {:induction false} LevelReloaded(st: Store, D: Store, hellfire: bool, cfg: Config)
    requires ShapedFor(st, GameSections(cfg, hellfire, false)) && ShapedFor(D, GameSections(cfg, hellfire, false))
    ensures First(Reloaded(st, D, hellfire, cfg), LevelSlot) == LevelFix(First(st, LevelSlot), cfg.levelType)
  {
    Reloading(st, D, hellfire, cfg);
    LevelRestored(st, D, GameSections(cfg, hellfire, IsTown(st)), cfg, GameCount);
  }

  /** The player's pDifficulty comes back. */
  lemma {:induction false} DifficultyReloaded(st: Store, D: Store, hellfire: bool, cfg: Config)
    requires ShapedFor(st, GameSections(cfg, hellfire, false)) && ShapedFor(D, GameSections(cfg, hellfire, false))
    ensures StoredDifficulty(Reloaded(st, D, hellfire, cfg), cfg.dims) == StoredDifficulty(st, cfg.dims)
  {
    var secs := GameSections(cfg, hellfire, IsTown(st));
    assert secs[PlayerSlot] == PlayerSection(cfg, hellfire);
    Player.SchemaTail(cfg.dims, hellfire, cfg.toBlk, Items.ItemCodec(hellfire, cfg.avail));
    Reloading(st, D, hellfire, cfg);
    GameAlone(secs, cfg, PlayerSlot);
    TailKept(st, D, secs, cfg, hellfire);
  }

  /** The player's vitals come back: every field the version's layout
      reads (_pHPBase, _pExperience, _pGold, the first giNumberOfLevels
      visited flags of each list, ...); the skipped addresses and the
      visited entries past giNumberOfLevels keep D's values. */
  lemma {:induction false} VitalsReloaded(st: Store, D: Store, hellfire: bool, cfg: Config)
    requires ShapedFor(st, GameSections(cfg, hellfire, false)) && ShapedFor(D, GameSections(cfg, hellfire, false))
    ensures var M, x := Player.Vitals(Player.NumLevels), Rec(st, PlayerSlot, Player.VitalsAt);
            |x| == |M| && |Rec(D, PlayerSlot, Player.VitalsAt)| == |M| &&
            Rec(Reloaded(st, D, hellfire, cfg), PlayerSlot, Player.VitalsAt) ==
            Player.VitalsRestored(M, x, Rec(D, PlayerSlot, Player.VitalsAt), TablesFor(hellfire).levels)
  {
    var secs := GameSections(cfg, hellfire, IsTown(st));
    var levels := TablesFor(hellfire).levels;
    assert secs[PlayerSlot] == PlayerSection(cfg, hellfire);
    Player.SchemaVitals(cfg.dims, hellfire, cfg.toBlk, Items.ItemCodec(hellfire, cfg.avail));
    RunReloaded(st, D, hellfire, cfg, PlayerSlot, Player.VitalsAt);
    Player.VitalsPair(levels);
    Player.VitalsExpected(Player.Vitals(Player.NumLevels), Player.Vitals(levels), levels,
                          Rec(st, PlayerSlot, Player.VitalsAt), Rec(D, PlayerSlot, Player.VitalsAt));
  }

  lemma {:induction false} TailKept(st: Store, D: Store, secs: seq<Section>, cfg: Config, hellfire: bool)
    requires |secs| == GameCount && SectionsValid(secs) && Alone(secs, PlayerSlot, PlayerSlot)
    requires ShapedFor(st, secs) && ShapedFor(D, secs)
    requires var sec, k := secs[PlayerSlot], Player.TailAt(cfg.dims);
             sec.Run? && k < |sec.cs| && sec.cs[k] == Player.TailCodec(hellfire) && |sec.cs[k].mem| == Player.TailLen
    ensures StoredDifficulty(RestoreUpTo(Restorer(st), secs, D, GameCount), cfg.dims) == StoredDifficulty(st, cfg.dims)
  {
    var k := Player.TailAt(cfg.dims);
    var x := Rec(st, PlayerSlot, k);
    RunKept(st, D, secs, PlayerSlot, k, GameCount);
    Player.TailExpected(x, Rec(D, PlayerSlot, k), hellfire);
    var y := Rec(RestoreUpTo(Restorer(st), secs, D, GameCount), PlayerSlot, k);
    assert |y| == Player.TailLen && y[DifficultyAt] == x[DifficultyAt];
  }

  /** The difficulty SaveGame stores in the player is the one LoadGame
      sets again. */
  lemma {:induction false} DifficultyRoundTrip(st: Store, D: Store, g: int, hellfire: bool, cfg: Config)
    requires DIFF_NORMAL <= g <= DIFF_HELL
    requires var st' := WithDifficulty(st, g, cfg.dims);
             ShapedFor(st', GameSections(cfg, hellfire, false)) && ShapedFor(D, GameSections(cfg, hellfire, false))
    ensures Difficulty(Reloaded(WithDifficulty(st, g, cfg.dims), D, hellfire, cfg), cfg.dims) == g
  {
    var st' := WithDifficulty(st, g, cfg.dims);
    DifficultyReloaded(st', D, hellfire, cfg);
    SignedPattern(g);
    TailSized(st', hellfire, cfg);
  }

  /** A store in shape has a tail of TailLen fields. */
  lemma {:induction false} TailSized(st: Store, hellfire: bool, cfg: Config)
    requires ShapedFor(st, GameSections(cfg, hellfire, false))
    ensures |Rec(st, PlayerSlot, Player.TailAt(cfg.dims))| == Player.TailLen
  {
    var secs := GameSections(cfg, hellfire, false);
    assert secs[PlayerSlot] == PlayerSection(cfg, hellfire);
    Player.SchemaTail(cfg.dims, hellfire, cfg.toBlk, Items.ItemCodec(hellfire, cfg.avail));
    assert RunSized(st, secs[PlayerSlot]);
  }

  /** dFlags comes back with its volatile bits cleared, in town too. */
  lemma {:induction false} FlagsReloaded(st: Store, D: Store, hellfire: bool, cfg: Config)
    requires ShapedFor(st, GameSections(cfg, hellfire, false)) && ShapedFor(D, GameSections(cfg, hellfire, false))
    ensures var x, n := First(st, 30), cfg.lim.dunX * cfg.lim.dunY;
            |x| == n && First(Reloaded(st, D, hellfire, cfg), 30) == Grid.Written(x, true)
  {
    var lim := cfg.lim;
    var secs := GameSections(cfg, hellfire, IsTown(st));
    assert secs[30] == GridOf(30, U8, lim.dunX, lim.dunY, true);
    RunReloaded(st, D, hellfire, cfg, 30, 0);
    Grid.GridExpected(U8, lim.dunX, lim.dunY, true, First(st, 30), First(D, 30));
  }

  // ---------------------------------------------------------------------
  // SaveGame

  /** SaveGame: stores gnDifficulty in the player, writes the tag and every
      section into a buffer of cap bytes and flushes it as "game". Returns
      the globals as saved. */
  method SaveGame(archive: Archive, st: Store, difficulty: int, spawn: bool, hellfire: bool, cfg: Config,
                  cap: nat, alloc: seq<byte>) returns (saved: Store)
    requires cap <= |alloc| && GameFits(WithDifficulty(st, difficulty, cfg.dims), spawn, hellfire, cfg, cap, alloc)
    modifies archive
    ensures saved == WithDifficulty(st, difficulty, cfg.dims)
    ensures archive.files == old(archive.files)[GameName := GameBlob(saved, spawn, hellfire, cfg, cap, alloc)]
  {
    var file := new SaveHelper(GameName, cap, alloc);
    assert file.buffer[..] == alloc;
    file.Write(LittleEndian, 4, SaveTag(spawn, hellfire));
    saved := WithDifficulty(st, difficulty, cfg.dims);
    assert file.State() == WriteNum(Writer(true, alloc, 0, cap), LittleEndian, 4, SaveTag(spawn, hellfire));
    WriteAndFlush(file, archive, GameSections(cfg, hellfire, IsTown(saved)), saved);
  }
}

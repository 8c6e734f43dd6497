/** ConvertLevels in Source/loadsave.cpp, and the LoadGame that calls it.

    A game saved by the other version (the base game or Hellfire) leaves
    level files in that version's layout. LoadGame then rewrites every one
    it finds: the regular levels 0 .. giNumberOfLevels - 1, then the set
    level of every quest that is available and has a level type, each
    loaded with the save's layout and saved with the running one's. The
    level globals the loops move through are put back at the end, and
    LoadGame finishes by saving the game again in the running version's
    layout.

    Whether a level file exists (LevelFileExists), the names of the level
    files (GetPermLevelNames, GetTempLevelNames) and the seed
    AdvanceRndSeed returns are computed by code this model does not hold,
    and are parameters (Env). */
module Convert {
  import opened Wire
  import opened Cursor
  import opened Layout
  import opened Codec
  import opened Sections
  import opened Files
  import opened Header
  import opened Game
  import opened Level

  /** MAXQUESTS and QUEST_NOTAVAIL. */
  const MAXQUESTS: nat := 24
  const QUEST_NOTAVAIL: nat := 0

  /** DTYPE_NONE as the byte _qlvltype is loaded from. */
  const DTYPE_NONE_BYTE: nat := 0xFF

  /** The quests' slot, and where _qactive, _qlvltype and _qslvl sit in a
      quest record. */
  const QuestSlot: nat := 8
  const ActiveAt: nat := 2
  const TypeAt: nat := 3
  const SetLevelAt: nat := 6

  /** What the conversion depends on besides the globals and the save's
      version: LevelFileExists, the names LoadLevel and SaveLevel use, the
      seed AdvanceRndSeed returns, gbIsHellfire, the configuration, and
      the buffer of cap bytes SaveLevel writes into. */
  datatype Env = Env(fileExists: LevelId -> bool, permName: LevelId -> string, tempName: LevelId -> string,
                     seed: int, hellfire: bool, cfg: Config, cap: nat, alloc: seq<byte>)

  /** The archive and the globals between two steps of the conversion;
      fits: every SaveLevel so far had room in its buffer; fatal: LoadLevel
      found no file and stopped the program. */
  datatype Conv = Conv(files: map<string, seq<byte>>, st: Store, fits: bool, fatal: bool)

  /** Field f of the level globals (setlevel, setlvlnum, currlevel,
      leveltype) set to v. */
  function SetLevelField(st: Store, f: nat, v: int): (st': Store)
    ensures forall t :: t != LevelSlot ==> Pool(st', t) == Pool(st, t)
    ensures |Pool(st', LevelSlot)| == |Pool(st, LevelSlot)|
  {
    SetField(st, LevelSlot, 0, f, Num(Pattern32(v)))
  }

  /** Field f of quest i as the byte it was loaded from; a quest the store
      does not hold reads as 0, QUEST_NOTAVAIL. */
  function QuestByte(st: Store, i: nat, f: nat): nat
  {
    var x := Rec(st, QuestSlot, i);
    if f < |x| then NumOf(x[f]) else 0
  }

  // ---------------------------------------------------------------------
  // The loops as functions

  /** LoadLevel with the save's layout, then SaveLevel with the running
      one, on the level the globals name. giNumberOfLevels holds the
      save's count, as LoadGame set it. */
  ghost function Transcode(e: Env, save: bool, c: Conv): Conv
    requires e.cap <= |e.alloc|
  {
    Transcoded(e, save, c, LoadLevelFrom(c.files, e.permName(LevelOf(c.st)), save, e.cfg, c.st))
  }

  /** The conversion once LoadLevel has given out. */
  ghost function Transcoded(e: Env, save: bool, c: Conv, out: LevelLoad): Conv
    requires e.cap <= |e.alloc|
  {
    match out
    case NoLevel => c.(fatal := true)
    case LevelRead(st1) =>
      var cur := Seeded(st1, e.seed);
      Conv(c.files[e.tempName(LevelOf(st1)) := LevelBlob(cur, e.hellfire, e.cfg, e.cap, e.alloc)],
           MarkVisited(cur), c.fits && LevelFits(cur, e.hellfire, e.cfg, e.cap, e.alloc), false)
  }

  /** Regular level i: currlevel is set, and when its file exists
      leveltype is taken from gnLevelTypeTbl and the level converted. */
  ghost function RegularStep(e: Env, save: bool, c: Conv, i: nat): Conv
    requires e.cap <= |e.alloc|
  {
    if c.fatal then c
    else
      var st := SetLevelField(c.st, 2, i);
      if !e.fileExists(LevelOf(st)) then c.(st := st)
      else Transcode(e, save, c.(st := SetLevelField(st, 3, e.cfg.levelType(i))))
  }

  /** Quest i: skipped when it is not available; otherwise leveltype is
      its level type, and unless that is DTYPE_NONE setlvlnum is its set
      level, converted when the file exists. */
  ghost function QuestStep(e: Env, save: bool, c: Conv, i: nat): Conv
    requires e.cap <= |e.alloc|
  {
    if c.fatal || QuestByte(c.st, i, ActiveAt) == QUEST_NOTAVAIL then c
    else
      var t := QuestByte(c.st, i, TypeAt);
      var st := SetLevelField(c.st, 3, t);
      if t == DTYPE_NONE_BYTE then c.(st := st)
      else
        var st' := SetLevelField(st, 1, QuestByte(c.st, i, SetLevelAt));
        if !e.fileExists(LevelOf(st')) then c.(st := st') else Transcode(e, save, c.(st := st'))
  }

  /** One step of a loop: the state after it, from the state before and
      the loop index. */
  type StepFn = (Conv, nat) -> Conv

  /** The loop over the quests (quest) or over the regular levels. */
  ghost function Stepper(e: Env, save: bool, quest: bool): StepFn
    requires e.cap <= |e.alloc|
  {
    (c: Conv, i: nat) => if quest then QuestStep(e, save, c, i) else RegularStep(e, save, c, i)
  }

  /** The first n steps of a loop. */
  ghost function Steps(step: StepFn, c: Conv, n: nat): Conv
  {
    if n == 0 then c else step(Steps(step, c, n - 1), n - 1)
  }

  /** The regular levels with setlevel false, then the quest levels with
      setlevel true, then the four level globals put back. */
  ghost function ConvertFrom(e: Env, save: bool, files: map<string, seq<byte>>, st: Store): Conv
    requires e.cap <= |e.alloc|
  {
    var c1 := Steps(Stepper(e, save, false), Conv(files, SetLevelField(st, 0, 0), true, false), TablesFor(save).levels);
    var c2 := Steps(Stepper(e, save, true), c1.(st := SetLevelField(c1.st, 0, 1)), MAXQUESTS);
    if c2.fatal then c2 else c2.(st := SetFirst(c2.st, LevelSlot, First(st, LevelSlot)))
  }

  // ---------------------------------------------------------------------
  // Facts about the steps

  /** A step that never undoes a failure to fit or a stop. */
  ghost predicate Monotone(step: StepFn)
  {
    forall c: Conv, i: nat {:trigger step(c, i)} :: (step(c, i).fits ==> c.fits) && (c.fatal ==> step(c, i) == c)
  }

  /** Its loop has room up to n if it has up to m >= n, and a stop at n
      is where the loop ends. */
  lemma {:induction false} StepsMonotone(step: StepFn, c: Conv, n: nat, m: nat)
    requires Monotone(step) && n <= m
    ensures Steps(step, c, m).fits ==> Steps(step, c, n).fits
    ensures Steps(step, c, n).fatal ==> Steps(step, c, m) == Steps(step, c, n)
    decreases m
  {
    if n < m {
      StepsMonotone(step, c, n, m - 1);
    }
  }

  lemma {:induction false} LoopsMonotone(e: Env, save: bool, quest: bool)
    requires e.cap <= |e.alloc|
    ensures Monotone(Stepper(e, save, quest))
  {
  }

  /** Pass i of a loop that has room for n > i passes, from the state
      the first i passes leave: it has room, it is the first i + 1
      passes, and a stop in it is where the loop ends. */
  lemma {:induction false} LoopPassRoom(step: StepFn, c0: Conv, c: Conv, i: nat, n: nat)
    requires Monotone(step) && i < n && Steps(step, c0, n).fits && Steps(step, c0, i) == c
    ensures step(c, i).fits && Steps(step, c0, i + 1) == step(c, i)
    ensures step(c, i).fatal ==> Steps(step, c0, n) == step(c, i)
  {
    StepsMonotone(step, c0, i + 1, n);
  }

  /** The same for the loops of ConvertLevels. */
  lemma {:induction false} LoopRoom(e: Env, save: bool, quest: bool, c0: Conv, c: Conv, i: nat, n: nat)
    requires e.cap <= |e.alloc| && i < n
    requires Steps(Stepper(e, save, quest), c0, n).fits && Steps(Stepper(e, save, quest), c0, i) == c
    ensures Stepper(e, save, quest)(c, i).fits && Steps(Stepper(e, save, quest), c0, i + 1) == Stepper(e, save, quest)(c, i)
    ensures Stepper(e, save, quest)(c, i).fatal ==> Steps(Stepper(e, save, quest), c0, n) == Stepper(e, save, quest)(c, i)
  {
    LoopsMonotone(e, save, quest);
    LoopPassRoom(Stepper(e, save, quest), c0, c, i, n);
  }

  /** What a conversion keeps of the globals st0 it starts from: the
      slots, the level globals' record and the quests. */
  ghost predicate Kept(st0: Store, st: Store)
  {
    |st| == |st0| && |Pool(st, LevelSlot)| == |Pool(st0, LevelSlot)| && Pool(st, QuestSlot) == Pool(st0, QuestSlot)
  }

  /** A step that keeps them. */
  ghost predicate Keeps(step: StepFn, st0: Store)
  {
    forall c: Conv, i: nat {:trigger step(c, i)} :: Kept(st0, c.st) ==> Kept(st0, step(c, i).st)
  }

  lemma {:induction false} StepsKeep(step: StepFn, c: Conv, n: nat, st0: Store)
    requires Keeps(step, st0) && Kept(st0, c.st)
    ensures Kept(st0, Steps(step, c, n).st)
  {
    if n > 0 {
      StepsKeep(step, c, n - 1, st0);
    }
  }

  /** LoadLevel and SaveLevel keep them. */
  lemma {:induction false} TranscodeKeeps(e: Env, save: bool, c: Conv, st0: Store)
    requires e.cap <= |e.alloc| && Kept(st0, c.st)
    ensures Kept(st0, Transcode(e, save, c).st)
  {
    var out := LoadLevelFrom(c.files, e.permName(LevelOf(c.st)), save, e.cfg, c.st);
    LoadLevelKeeps(c.files, e.permName(LevelOf(c.st)), save, e.cfg, c.st, LevelSlot);
    LoadLevelKeeps(c.files, e.permName(LevelOf(c.st)), save, e.cfg, c.st, QuestSlot);
    TranscodedKeeps(e, save, c, out, st0);
  }

  lemma {:induction false} TranscodedKeeps(e: Env, save: bool, c: Conv, out: LevelLoad, st0: Store)
    requires e.cap <= |e.alloc| && Kept(st0, c.st) && (out.LevelRead? ==> Kept(st0, out.st))
    ensures Kept(st0, Transcoded(e, save, c, out).st)
  {
    if out.LevelRead? {
      var cur := Seeded(out.st, e.seed);
      assert Pool(cur, LevelSlot) == Pool(out.st, LevelSlot) && Pool(cur, QuestSlot) == Pool(out.st, QuestSlot);
      VisitedMarked(cur);
    }
  }

  lemma {:induction false} RegularKeeps(e: Env, save: bool, c: Conv, i: nat, st0: Store)
    requires e.cap <= |e.alloc| && Kept(st0, c.st)
    ensures Kept(st0, RegularStep(e, save, c, i).st)
  {
    if !c.fatal {
      var st := SetLevelField(c.st, 2, i);
      TranscodeKeeps(e, save, c.(st := SetLevelField(st, 3, e.cfg.levelType(i))), st0);
    }
  }

  lemma {:induction false} QuestKeeps(e: Env, save: bool, c: Conv, i: nat, st0: Store)
    requires e.cap <= |e.alloc| && Kept(st0, c.st)
    ensures Kept(st0, QuestStep(e, save, c, i).st)
  {
    if !c.fatal && QuestByte(c.st, i, ActiveAt) != QUEST_NOTAVAIL {
      var st := SetLevelField(c.st, 3, QuestByte(c.st, i, TypeAt));
      var st' := SetLevelField(st, 1, QuestByte(c.st, i, SetLevelAt));
      TranscodeKeeps(e, save, c.(st := st'), st0);
    }
  }

  lemma {:induction false} LoopsKeep(e: Env, save: bool, quest: bool, st0: Store)
    requires e.cap <= |e.alloc|
    ensures Keeps(Stepper(e, save, quest), st0)
  {
    forall c: Conv, i: nat | Kept(st0, c.st)
      ensures Kept(st0, Stepper(e, save, quest)(c, i).st)
    {
      if quest {
        QuestKeeps(e, save, c, i, st0);
      } else {
        RegularKeeps(e, save, c, i, st0);
      }
    }
  }

  /** ConvertLevels puts setlevel, setlvlnum, currlevel and leveltype back
      as they were and leaves the quests it read as they were. */
  lemma {:induction false} ConvertRestores(e: Env, save: bool, files: map<string, seq<byte>>, st: Store)
    requires e.cap <= |e.alloc|
    ensures var c := ConvertFrom(e, save, files, st);
            !c.fatal ==> |c.st| == |st| && First(c.st, LevelSlot) == First(st, LevelSlot) && Pool(c.st, QuestSlot) == Pool(st, QuestSlot)
  {
    var c0 := Conv(files, SetLevelField(st, 0, 0), true, false);
    LoopsKeep(e, save, false, st);
    LoopsKeep(e, save, true, st);
    var c1 := Steps(Stepper(e, save, false), c0, TablesFor(save).levels);
    StepsKeep(Stepper(e, save, false), c0, TablesFor(save).levels, st);
    var c1' := c1.(st := SetLevelField(c1.st, 0, 1));
    StepsKeep(Stepper(e, save, true), c1', MAXQUESTS, st);
  }

  /** A level the conversion rewrites is saved under its temporary name
      in the running version's layout, and LoadLevel of the running
      version, into globals of the same leveltype, reads it back as the
      codecs restore what SaveLevel wrote: the globals LoadLevel left, with
      level 0 seeded. */
  lemma {:induction false} TranscodedReloads(e: Env, save: bool, c: Conv, D: Store)
    requires e.cap <= |e.alloc|
    requires var out := LoadLevelFrom(c.files, e.permName(LevelOf(c.st)), save, e.cfg, c.st);
             out.LevelRead? && Reloadable(Seeded(out.st, e.seed), D, e)
    ensures var out := LoadLevelFrom(c.files, e.permName(LevelOf(c.st)), save, e.cfg, c.st);
            var c' := Transcode(e, save, c);
            !c'.fatal && c'.fits == c.fits &&
            LoadLevelFrom(c'.files, e.tempName(LevelOf(c.st)), e.hellfire, e.cfg, D) ==
            LevelRead(RestoredLevel(Seeded(out.st, e.seed), D, e.hellfire, e.cfg))
  {
    var out := LoadLevelFrom(c.files, e.permName(LevelOf(c.st)), save, e.cfg, c.st);
    var cur := Seeded(out.st, e.seed);
    TranscodeSaves(e, save, c);
    LevelRoundTrip(c.files, e.tempName(LevelOf(c.st)), cur, D, e.hellfire, e.cfg, e.cap, e.alloc);
  }

  /** The conversion of a level that loads: its blob is the one SaveLevel
      writes, under the temporary name of the level the globals name. */
  lemma {:induction false} TranscodeSaves(e: Env, save: bool, c: Conv)
    requires e.cap <= |e.alloc|
    requires LoadLevelFrom(c.files, e.permName(LevelOf(c.st)), save, e.cfg, c.st).LevelRead?
    ensures var cur := Seeded(LoadLevelFrom(c.files, e.permName(LevelOf(c.st)), save, e.cfg, c.st).st, e.seed);
            var c' := Transcode(e, save, c);
            !c'.fatal && c'.fits == (c.fits && LevelFits(cur, e.hellfire, e.cfg, e.cap, e.alloc)) &&
            c'.files == c.files[e.tempName(LevelOf(c.st)) := LevelBlob(cur, e.hellfire, e.cfg, e.cap, e.alloc)]
  {
    LevelSlotUnread();
    LoadLevelKeeps(c.files, e.permName(LevelOf(c.st)), save, e.cfg, c.st, LevelSlot);
    TranscodedSaves(e, save, c, LoadLevelFrom(c.files, e.permName(LevelOf(c.st)), save, e.cfg, c.st));
  }

  lemma {:induction false} TranscodedSaves(e: Env, save: bool, c: Conv, out: LevelLoad)
    requires e.cap <= |e.alloc| && out.LevelRead? && LevelOf(out.st) == LevelOf(c.st)
    ensures var cur := Seeded(out.st, e.seed);
            var c' := Transcoded(e, save, c, out);
            !c'.fatal && c'.fits == (c.fits && LevelFits(cur, e.hellfire, e.cfg, e.cap, e.alloc)) &&
            c'.files == c.files[e.tempName(LevelOf(c.st)) := LevelBlob(cur, e.hellfire, e.cfg, e.cap, e.alloc)]
  {
  }

  /** What the round trip of a level file asks of the globals saved (st)
      and of those it is loaded into (D). */
  ghost predicate Reloadable(st: Store, D: Store, e: Env)
  {
    e.cap <= |e.alloc| && LevelReady(st, e.hellfire, e.cfg, e.cap) && IsTown(D) == IsTown(st) &&
    ShapedFor(st, LevelSections(e.cfg, e.hellfire, false)) && ShapedFor(D, LevelSections(e.cfg, e.hellfire, false))
  }

  // ---------------------------------------------------------------------
  // ConvertLevels

  /** LoadLevel then SaveLevel on the level the globals st name; ok is
      false when LoadLevel stops the program. */
  method TranscodeLevel(archive: Archive, e: Env, save: bool, st: Store) returns (ok: bool, st': Store)
    requires e.cap <= |e.alloc| && Transcode(e, save, Conv(archive.files, st, true, false)).fits
    modifies archive
    ensures var c := Transcode(e, save, Conv(old(archive.files), st, true, false));
            archive.files == c.files && ok == !c.fatal && (ok ==> st' == c.st)
  {
    var loaded := LoadLevel(archive, e.permName, save, e.cfg, st);
    if loaded.NoLevel? {
      return false, st;
    }
    st' := SaveLevel(archive, e.tempName, loaded.st, e.seed, e.hellfire, e.cfg, e.cap, e.alloc);
    ok := true;
  }

  /** One pass of the loop over the regular levels. */
  method RegularLevel(archive: Archive, e: Env, save: bool, st: Store, i: nat) returns (ok: bool, st': Store)
    requires e.cap <= |e.alloc| && RegularStep(e, save, Conv(archive.files, st, true, false), i).fits
    modifies archive
    ensures var c := RegularStep(e, save, Conv(old(archive.files), st, true, false), i);
            archive.files == c.files && ok == !c.fatal && (ok ==> st' == c.st)
  {
    st' := SetLevelField(st, 2, i);
    ok := true;
    if e.fileExists(LevelOf(st')) {
      st' := SetLevelField(st', 3, e.cfg.levelType(i));
      ok, st' := TranscodeLevel(archive, e, save, st');
    }
  }

  /** One pass of the loop over the quests. */
  method QuestLevel(archive: Archive, e: Env, save: bool, st: Store, i: nat) returns (ok: bool, st': Store)
    requires e.cap <= |e.alloc| && QuestStep(e, save, Conv(archive.files, st, true, false), i).fits
    modifies archive
    ensures var c := QuestStep(e, save, Conv(old(archive.files), st, true, false), i);
            archive.files == c.files && ok == !c.fatal && (ok ==> st' == c.st)
  {
    ok, st' := true, st;
    if QuestByte(st, i, ActiveAt) != QUEST_NOTAVAIL {
      var t := QuestByte(st, i, TypeAt);
      st' := SetLevelField(st, 3, t);
      if t != DTYPE_NONE_BYTE {
        st' := SetLevelField(st', 1, QuestByte(st, i, SetLevelAt));
        if e.fileExists(LevelOf(st')) {
          ok, st' := TranscodeLevel(archive, e, save, st');
        }
      }
    }
  }

  /** A whole loop: the regular levels 0 .. n - 1, or the quests. */
  method Loop(archive: Archive, e: Env, save: bool, st: Store, n: nat, quest: bool) returns (ok: bool, st': Store)
    requires e.cap <= |e.alloc| && Steps(Stepper(e, save, quest), Conv(archive.files, st, true, false), n).fits
    modifies archive
    ensures var c := Steps(Stepper(e, save, quest), Conv(old(archive.files), st, true, false), n);
            archive.files == c.files && ok == !c.fatal && (ok ==> st' == c.st)
  {
    hide Stepper;
    ghost var step := Stepper(e, save, quest);
    ghost var c0 := Conv(archive.files, st, true, false);
    st' := st;
    var i := 0;
    while i < n
      invariant i <= n
      invariant Steps(step, c0, i) == Conv(archive.files, st', true, false)
    {
      ok, st' := LoopPass(archive, e, save, st', i, quest, c0, n);
      if !ok {
        return;
      }
      i := i + 1;
    }
    ok := true;
  }

  /** Pass i of a loop of n passes from c0, after the first i: it leaves
      the first i + 1 passes, and when it stops, that is where the loop
      ends. */
  method LoopPass(archive: Archive, e: Env, save: bool, st: Store, i: nat, quest: bool, ghost c0: Conv, ghost n: nat)
    returns (ok: bool, st': Store)
    requires e.cap <= |e.alloc| && i < n && Steps(Stepper(e, save, quest), c0, n).fits
    requires Steps(Stepper(e, save, quest), c0, i) == Conv(archive.files, st, true, false)
    modifies archive
    ensures var c := Steps(Stepper(e, save, quest), c0, i + 1);
            archive.files == c.files && ok == !c.fatal && (ok ==> st' == c.st && c.fits) &&
            (!ok ==> Steps(Stepper(e, save, quest), c0, n) == c)
  {
    LoopRoom(e, save, quest, c0, Conv(archive.files, st, true, false), i, n);
    if quest {
      ok, st' := QuestLevel(archive, e, save, st, i);
    } else {
      ok, st' := RegularLevel(archive, e, save, st, i);
    }
  }

  /** ConvertLevels (save is gbIsHellfireSaveGame, whose counts LoadGame
      has put in giNumberOfLevels): the regular levels, then the quest
      levels, then the level globals put back and gbSkipSync cleared;
      out is what LoadLevel's app_fatal stops at, or the globals left. */
  method ConvertLevels(archive: Archive, e: Env, save: bool, st0: Store) returns (out: LevelLoad, skipSync: bool)
    requires e.cap <= |e.alloc| && ConvertFrom(e, save, archive.files, st0).fits
    modifies archive
    ensures var c := ConvertFrom(e, save, old(archive.files), st0);
            archive.files == c.files && out == (if c.fatal then NoLevel else LevelRead(c.st)) && (!c.fatal ==> !skipSync)
  {
    var saved := First(st0, LevelSlot);
    skipSync := true;
    ghost var c0 := Conv(archive.files, SetLevelField(st0, 0, 0), true, false);
    ghost var c1 := Steps(Stepper(e, save, false), c0, TablesFor(save).levels);
    ghost var c1' := c1.(st := SetLevelField(c1.st, 0, 1));
    LoopsMonotone(e, save, true);
    StepsMonotone(Stepper(e, save, true), c1', 0, MAXQUESTS);
    var ok, st := Loop(archive, e, save, SetLevelField(st0, 0, 0), TablesFor(save).levels, false);
    if !ok {
      return NoLevel, skipSync;
    }
    ok, st := Loop(archive, e, save, SetLevelField(st, 0, 1), MAXQUESTS, true);
    if !ok {
      return NoLevel, skipSync;
    }
    skipSync := false;
    out := LevelRead(SetFirst(st, LevelSlot, saved));
  }

  // ---------------------------------------------------------------------
  // LoadGame

  /** The sections LoadGame reads before ConvertLevels: the head, the
      seeds, the player, the quests and the portals. */
  const ConvertAt: nat := 10

  /** What LoadGame has read up to the Hellfire level test: the globals,
      the reader after the head and gbIsHellfireSaveGame; or the app_fatal
      it stops at. */
  datatype Head = Head(st: Store, r: Reader, save: bool) | Stopped(why: Failure)

  /** What LoadGame returns, the archive it leaves, and whether every
      buffer SaveLevel and SaveGame wrote into had room. */
  datatype Loading = Loading(out: Outcome, files: map<string, seq<byte>>, fits: bool)

  /** The tag, then the head with the save's layout, then the Hellfire
      level test. */
  ghost function ReadHead(files: map<string, seq<byte>>, spawn: bool, hellfire: bool, cfg: Config, D: Store): Head
  {
    var r := BlobReader(files, GameName);
    if !CanRead(r, 1) then Stopped(NoArchive)
    else
      var (magic, r1) := ReadNum(r, LittleEndian, 4);
      var v := IsHeaderValid(magic, spawn);
      if !v.valid then Stopped(InvalidSave)
      else
        var (st1, r2) := LoadRange(SectionLoader(LoadOne), GameSections(cfg, v.hellfireSave, false), D, r1, 0, HeadCount);
        if !hellfire && Entry(st1, LevelSlot, 2) > LastBaseLevel then Stopped(HellfireOnlyLevel)
        else Head(st1, r2, v.hellfireSave)
  }

  /** The sections from a up to n with the save's layout, the dungeon
      loops run only if the globals st are not in town. */
  ghost function ReadOn(cfg: Config, save: bool, st: Store, r: Reader, a: nat, n: nat): (Store, Reader)
    requires a <= n <= GameCount
  {
    LoadRange(SectionLoader(LoadOne), GameSections(cfg, save, IsTown(st)), st, r, a, n)
  }

  /** ViewX, ViewY, nummonsters, numitems, nummissiles and nobjects set
      from the values the head held. The model reads them into the
      globals at once rather than into locals: the level files do not hold
      the view or nummissiles, and LoadLevel reads the other three before
      SaveLevel writes them, so the conversion sees no difference. */
  function WithHead(st: Store, head: Store): (st': Store)
    ensures |st'| == |st|
    ensures forall s :: 1 <= s < HeadCount && s < |st| ==> Pool(st', s) == Pool(head, s)
    ensures forall s: nat :: !(1 <= s < HeadCount) ==> Pool(st', s) == Pool(st, s)
  {
    seq(|st|, s requires 0 <= s < |st| => if 1 <= s < HeadCount then Pool(head, s) else st[s])
  }

  /** LoadGame: the head; the seeds, the player, the quests and the
      portals; gnDifficulty from the player; if the save is of the other
      version, ConvertLevels, stopping where LoadLevel finds no file, and
      the head's globals put back; the rest of the sections; and if the
      levels were converted, SaveGame in the running version's layout.
      gbIsHellfireSaveGame ends as gbIsHellfire. spawn, cap and alloc are
      gbIsSpawn and SaveGame's buffer. */
  ghost function LoadGameIn(e: Env, spawn: bool, cap: nat, alloc: seq<byte>, files: map<string, seq<byte>>, D: Store): (l: Loading)
    requires e.cap <= |e.alloc| && cap <= |alloc|
    ensures l.out.Loaded? ==> l.out.hellfireSave == e.hellfire && DIFF_NORMAL <= l.out.difficulty <= DIFF_HELL
    ensures l.out.Failed? && l.out.why != NoLevelFile ==> l.files == files && l.fits
  {
    match ReadHead(files, spawn, e.hellfire, e.cfg, D)
    case Stopped(why) => Loading(Failed(why), files, true)
    case Head(st1, r1, save) => AfterHead(e, spawn, cap, alloc, files, st1, r1, save)
  }

  /** LoadGame from the seeds on: st1 and r1 are what the head left, save
      is gbIsHellfireSaveGame. */
  ghost function AfterHead(e: Env, spawn: bool, cap: nat, alloc: seq<byte>, files: map<string, seq<byte>>,
                           st1: Store, r1: Reader, save: bool): (l: Loading)
    requires e.cap <= |e.alloc| && cap <= |alloc|
    ensures l.out.Loaded? ==> l.out.hellfireSave == e.hellfire && DIFF_NORMAL <= l.out.difficulty <= DIFF_HELL
    ensures l.out.Failed? ==> l.out.why == NoLevelFile && save != e.hellfire
    ensures save == e.hellfire ==> l.files == files && l.fits
  {
    var (st2, r2) := ReadOn(e.cfg, save, st1, r1, HeadCount, ConvertAt);
    if save == e.hellfire then
      Loading(Loaded(ReadOn(e.cfg, save, st2, r2, ConvertAt, GameCount).0, Difficulty(st2, e.cfg.dims), e.hellfire), files, true)
    else Converted(e, spawn, cap, alloc, files, st1, st2, r2, save)
  }

  /** LoadGame from ConvertLevels on, for a save of the other version:
      st1 is what the head left, st2 and r2 what the portals left. */
  ghost function Converted(e: Env, spawn: bool, cap: nat, alloc: seq<byte>, files: map<string, seq<byte>>,
                           st1: Store, st2: Store, r2: Reader, save: bool): (l: Loading)
    requires e.cap <= |e.alloc| && cap <= |alloc|
    ensures l.out.Loaded? ==> l.out.hellfireSave == e.hellfire && DIFF_NORMAL <= l.out.difficulty <= DIFF_HELL
    ensures l.out.Failed? ==> l.out.why == NoLevelFile
  {
    var c := ConvertFrom(e, save, files, st2);
    if c.fatal then Loading(Failed(NoLevelFile), c.files, c.fits)
    else
      var g := Difficulty(st2, e.cfg.dims);
      var saved := WithDifficulty(ReadOn(e.cfg, save, WithHead(c.st, st1), r2, ConvertAt, GameCount).0, g, e.cfg.dims);
      Loading(Loaded(saved, g, e.hellfire), c.files[GameName := GameBlob(saved, spawn, e.hellfire, e.cfg, cap, alloc)],
              c.fits && GameFits(saved, spawn, e.hellfire, e.cfg, cap, alloc))
  }

  // ---------------------------------------------------------------------
  // Facts about LoadGame

  /** The sections from a on write no slot below a but the lights' 29,
      which the dungeon's light grid shares. */
  lemma {:induction false} LaterSections(cfg: Config, save: bool, town: bool, s: nat, a: nat, n: nat)
    requires s < a <= n <= GameCount && s != 29
    ensures Untouched(GameSections(cfg, save, town), s, a, n)
  {
    var secs := GameSections(cfg, save, town);
    forall i | a <= i < n
      ensures !Writes(secs[i], s)
    {
      assert secs[i] == GameSection(i, cfg, save, town);
    }
  }

  /** Reading the sections from a on leaves those slots and the number of
      slots as they were. */
  lemma {:induction false} ReadOnKeeps(cfg: Config, save: bool, st: Store, r: Reader, s: nat, a: nat, n: nat)
    requires s < a <= n <= GameCount && s != 29
    ensures Pool(ReadOn(cfg, save, st, r, a, n).0, s) == Pool(st, s) && |ReadOn(cfg, save, st, r, a, n).0| == |st|
  {
    var secs := GameSections(cfg, save, IsTown(st));
    LaterSections(cfg, save, IsTown(st), s, a, n);
    LoadUntouched(LoadOne, secs, st, r, s, a, n);
    LoadRangeLength(LoadOne, secs, st, r, a, n);
  }

  /** The same for every slot of the head at once. */
  lemma {:induction false} ReadOnKeepsHead(cfg: Config, save: bool, st: Store, r: Reader, a: nat, n: nat)
    requires HeadCount <= a <= n <= GameCount
    ensures var st' := ReadOn(cfg, save, st, r, a, n).0;
            |st'| == |st| && forall s :: 0 <= s < HeadCount ==> Pool(st', s) == Pool(st, s)
  {
    ReadOnKeeps(cfg, save, st, r, 0, a, n);
    forall s | 0 <= s < HeadCount
      ensures Pool(ReadOn(cfg, save, st, r, a, n).0, s) == Pool(st, s)
    {
      ReadOnKeeps(cfg, save, st, r, s, a, n);
    }
  }

  /** When the save is of the running version LoadGame converts nothing,
      writes nothing, and reads what LoadGameFrom describes. */
  lemma {:induction false} SameVersionLoad(e: Env, spawn: bool, cap: nat, alloc: seq<byte>, files: map<string, seq<byte>>, D: Store)
    requires e.cap <= |e.alloc| && cap <= |alloc|
    ensures var h := ReadHead(files, spawn, e.hellfire, e.cfg, D);
            (h.Stopped? || h.save == e.hellfire) ==>
            LoadGameIn(e, spawn, cap, alloc, files, D) == Loading(LoadGameFrom(files, spawn, e.hellfire, e.cfg, D), files, true)
  {
    hide Stepper, FullSection;
    var h := ReadHead(files, spawn, e.hellfire, e.cfg, D);
    if h.Head? && h.save == e.hellfire {
      SameVersionAfter(e, spawn, cap, alloc, files, h.st, h.r);
    }
  }

  lemma {:induction false} SameVersionAfter(e: Env, spawn: bool, cap: nat, alloc: seq<byte>, files: map<string, seq<byte>>,
                                            st1: Store, r1: Reader)
    requires e.cap <= |e.alloc| && cap <= |alloc|
    ensures var st := ReadOn(e.cfg, e.hellfire, st1, r1, HeadCount, GameCount).0;
            AfterHead(e, spawn, cap, alloc, files, st1, r1, e.hellfire) ==
            Loading(Loaded(st, Difficulty(st, e.cfg.dims), e.hellfire), files, true)
  {
    SameVersionRest(e.cfg, e.hellfire, st1, r1);
  }

  /** Reading up to the portals and then the rest is reading it all, and
      the player, hence the difficulty, is the same before the rest as
      after it. */
  lemma {:induction false} SameVersionRest(cfg: Config, save: bool, st1: Store, r1: Reader)
    ensures var (st2, r2) := ReadOn(cfg, save, st1, r1, HeadCount, ConvertAt);
            var st := ReadOn(cfg, save, st1, r1, HeadCount, GameCount).0;
            ReadOn(cfg, save, st2, r2, ConvertAt, GameCount).0 == st && Difficulty(st2, cfg.dims) == Difficulty(st, cfg.dims)
  {
    var (st2, r2) := ReadOn(cfg, save, st1, r1, HeadCount, ConvertAt);
    ReadsOn(cfg, save, st1, r1);
    ReadOnKeeps(cfg, save, st2, r2, PlayerSlot, ConvertAt, GameCount);
    SameDifficulty(st2, ReadOn(cfg, save, st2, r2, ConvertAt, GameCount).0, cfg.dims);
  }

  lemma {:induction false} SameDifficulty(a: Store, b: Store, d: Player.Dims)
    requires Pool(a, PlayerSlot) == Pool(b, PlayerSlot)
    ensures Difficulty(a, d) == Difficulty(b, d)
  {
    assert Rec(a, PlayerSlot, Player.TailAt(d)) == Rec(b, PlayerSlot, Player.TailAt(d));
  }

  lemma {:induction false} ReadsOn(cfg: Config, save: bool, st1: Store, r1: Reader)
    ensures var (st2, r2) := ReadOn(cfg, save, st1, r1, HeadCount, ConvertAt);
            ReadOn(cfg, save, st2, r2, ConvertAt, GameCount).0 == ReadOn(cfg, save, st1, r1, HeadCount, GameCount).0
  {
    var (st2, r2) := ReadOn(cfg, save, st1, r1, HeadCount, ConvertAt);
    ReadOnKeeps(cfg, save, st1, r1, LevelSlot, HeadCount, ConvertAt);
    SameLevel(st2, st1);
    LoadRangeSplit(SectionLoader(LoadOne), GameSections(cfg, save, IsTown(st1)), st1, r1, HeadCount, ConvertAt, GameCount);
  }

  /** A game file whose tag is the running version's is never converted:
      LoadGame reads it as LoadGameFrom does and writes nothing. */
  lemma {:induction false} OwnTagNotConverted(e: Env, spawn: bool, cap: nat, alloc: seq<byte>, files: map<string, seq<byte>>,
                                              blob: seq<byte>, D: Store)
    requires e.cap <= |e.alloc| && cap <= |alloc|
    requires ReadNum(Reader(true, blob, 0), LittleEndian, 4) == (SaveTag(spawn, e.hellfire), Reader(true, blob, 4))
    ensures var files' := files[GameName := blob];
            LoadGameIn(e, spawn, cap, alloc, files', D) == Loading(LoadGameFrom(files', spawn, e.hellfire, e.cfg, D), files', true)
  {
    var files' := files[GameName := blob];
    SaveTagAccepted(spawn, e.hellfire);
    assert BlobReader(files', GameName) == Reader(true, blob, 0);
    SameVersionLoad(e, spawn, cap, alloc, files', D);
  }

  /** Converting once is enough: after LoadGame has converted a save and
      written it again, the next LoadGame reads it without converting and
      leaves the archive as it is. */
  lemma {:induction false} ConvertsOnce(e: Env, spawn: bool, cap: nat, alloc: seq<byte>, files: map<string, seq<byte>>,
                                        D: Store, D2: Store)
    requires e.cap <= |e.alloc| && cap <= |alloc|
    requires var h := ReadHead(files, spawn, e.hellfire, e.cfg, D); h.Head? && h.save != e.hellfire
    requires var l := LoadGameIn(e, spawn, cap, alloc, files, D);
             l.out.Loaded? && GameReady(l.out.st, e.hellfire, e.cfg, cap)
    ensures var l := LoadGameIn(e, spawn, cap, alloc, files, D);
            LoadGameIn(e, spawn, cap, alloc, l.files, D2) == Loading(LoadGameFrom(l.files, spawn, e.hellfire, e.cfg, D2), l.files, true)
  {
    var h := ReadHead(files, spawn, e.hellfire, e.cfg, D);
    var (st2, r2) := ReadOn(e.cfg, h.save, h.st, h.r, HeadCount, ConvertAt);
    var l := Converted(e, spawn, cap, alloc, files, h.st, st2, r2, h.save);
    assert LoadGameIn(e, spawn, cap, alloc, files, D) == l;
    ConvertedWrites(e, spawn, cap, alloc, files, h.st, st2, r2, h.save);
    GameBlobHolds(l.out.st, spawn, e.hellfire, e.cfg, cap, alloc);
    OwnTagNotConverted(e, spawn, cap, alloc, ConvertFrom(e, h.save, files, st2).files,
                       GameBlob(l.out.st, spawn, e.hellfire, e.cfg, cap, alloc), D2);
  }

  /** The game file a conversion writes holds the globals LoadGame
      returned: the running version reads it back as the round trip of
      SaveGame and LoadGame gives, and in particular gets the player's
      vitals back (_pHPBase, _pExperience, _pGold, the visited flags up to
      its giNumberOfLevels), whichever version the save was. */
  lemma {:induction false} ConvertedReloads(e: Env, spawn: bool, cap: nat, alloc: seq<byte>, files: map<string, seq<byte>>,
                                            D: Store, D2: Store)
    requires e.cap <= |e.alloc| && cap <= |alloc|
    requires var h := ReadHead(files, spawn, e.hellfire, e.cfg, D); h.Head? && h.save != e.hellfire
    requires var l := LoadGameIn(e, spawn, cap, alloc, files, D);
             l.out.Loaded? && GameReady(l.out.st, e.hellfire, e.cfg, cap) && TownKept(l.out.st, e.cfg.levelType) &&
             ShapedFor(l.out.st, GameSections(e.cfg, e.hellfire, false)) && ShapedFor(D2, GameSections(e.cfg, e.hellfire, false))
    ensures var l := LoadGameIn(e, spawn, cap, alloc, files, D);
            var st' := Reloaded(l.out.st, D2, e.hellfire, e.cfg);
            var M, x, d := Player.Vitals(Player.NumLevels), Rec(l.out.st, PlayerSlot, Player.VitalsAt), Rec(D2, PlayerSlot, Player.VitalsAt);
            LoadGameIn(e, spawn, cap, alloc, l.files, D2) == Loading(Loaded(st', Difficulty(st', e.cfg.dims), e.hellfire), l.files, true) &&
            |x| == |M| && |d| == |M| && Rec(st', PlayerSlot, Player.VitalsAt) == Player.VitalsRestored(M, x, d, TablesFor(e.hellfire).levels)
  {
    hide *;
    var l := LoadGameIn(e, spawn, cap, alloc, files, D);
    ConvertsOnce(e, spawn, cap, alloc, files, D, D2);
    ConvertedBlob(e, spawn, cap, alloc, files, D);
    var blob := GameBlob(l.out.st, spawn, e.hellfire, e.cfg, cap, alloc);
    assert l.files[GameName := blob] == l.files;
    GameRoundTrip(l.files, l.out.st, D2, spawn, e.hellfire, e.cfg, cap, alloc);
    VitalsReloaded(l.out.st, D2, e.hellfire, e.cfg);
  }

  /** A conversion that loads leaves in the game file the blob SaveGame
      makes of the globals it returns, whose level the running version can
      hold. */
  lemma {:induction false} ConvertedBlob(e: Env, spawn: bool, cap: nat, alloc: seq<byte>, files: map<string, seq<byte>>, D: Store)
    requires e.cap <= |e.alloc| && cap <= |alloc|
    requires var h := ReadHead(files, spawn, e.hellfire, e.cfg, D); h.Head? && h.save != e.hellfire
    requires LoadGameIn(e, spawn, cap, alloc, files, D).out.Loaded?
    ensures var l := LoadGameIn(e, spawn, cap, alloc, files, D);
            GameName in l.files && l.files[GameName] == GameBlob(l.out.st, spawn, e.hellfire, e.cfg, cap, alloc) &&
            !(!e.hellfire && Entry(l.out.st, LevelSlot, 2) > LastBaseLevel)
  {
    var h := ReadHead(files, spawn, e.hellfire, e.cfg, D);
    var (st2, r2) := ReadOn(e.cfg, h.save, h.st, h.r, HeadCount, ConvertAt);
    var l := Converted(e, spawn, cap, alloc, files, h.st, st2, r2, h.save);
    assert LoadGameIn(e, spawn, cap, alloc, files, D) == l;
    ConvertedWrites(e, spawn, cap, alloc, files, h.st, st2, r2, h.save);
    HeadLevelHeld(e, spawn, cap, alloc, files, D);
  }

  /** The level LoadGame returns is the one its head read, which the
      Hellfire level test let through. */
  lemma {:induction false} HeadLevelHeld(e: Env, spawn: bool, cap: nat, alloc: seq<byte>, files: map<string, seq<byte>>, D: Store)
    requires e.cap <= |e.alloc| && cap <= |alloc|
    requires LoadGameIn(e, spawn, cap, alloc, files, D).out.Loaded?
    ensures !(!e.hellfire && Entry(LoadGameIn(e, spawn, cap, alloc, files, D).out.st, LevelSlot, 2) > LastBaseLevel)
  {
    HeadKept(e, spawn, cap, alloc, files, D);
    hide LoadGameIn, Stepper, FullSection;
    var h := ReadHead(files, spawn, e.hellfire, e.cfg, D);
    assert First(LoadGameIn(e, spawn, cap, alloc, files, D).out.st, LevelSlot) == First(h.st, LevelSlot);
  }

  /** A conversion that loads writes the game file last, from the globals
      LoadGame returns. */
  lemma {:induction false} ConvertedWrites(e: Env, spawn: bool, cap: nat, alloc: seq<byte>, files: map<string, seq<byte>>,
                                           st1: Store, st2: Store, r2: Reader, save: bool)
    requires e.cap <= |e.alloc| && cap <= |alloc|
    ensures var l := Converted(e, spawn, cap, alloc, files, st1, st2, r2, save);
            l.out.Loaded? ==>
            l.files == ConvertFrom(e, save, files, st2).files[GameName := GameBlob(l.out.st, spawn, e.hellfire, e.cfg, cap, alloc)]
  {
  }

  /** LoadGame returns setlevel, setlvlnum, currlevel, leveltype, the view
      and the four counts as its head read them, converting or not. */
  lemma {:induction false} HeadKept(e: Env, spawn: bool, cap: nat, alloc: seq<byte>, files: map<string, seq<byte>>, D: Store)
    requires e.cap <= |e.alloc| && cap <= |alloc|
    ensures var h, l := ReadHead(files, spawn, e.hellfire, e.cfg, D), LoadGameIn(e, spawn, cap, alloc, files, D);
            l.out.Loaded? ==>
            h.Head? && First(l.out.st, LevelSlot) == First(h.st, LevelSlot) && forall s :: 1 <= s < HeadCount ==> Pool(l.out.st, s) == Pool(h.st, s)
  {
    var h := ReadHead(files, spawn, e.hellfire, e.cfg, D);
    if h.Head? {
      HeadSurvives(e, spawn, cap, alloc, files, h.st, h.r, h.save);
    }
  }

  /** Whether or not it converts, LoadGame leaves setlevel, setlvlnum,
      currlevel, leveltype, the view and the four counts as the head read
      them: ConvertLevels puts the level globals back, and the locals
      restore the rest. */
  lemma {:induction false} HeadSurvives(e: Env, spawn: bool, cap: nat, alloc: seq<byte>, files: map<string, seq<byte>>,
                                        st1: Store, r1: Reader, save: bool)
    requires e.cap <= |e.alloc| && cap <= |alloc|
    ensures var l := AfterHead(e, spawn, cap, alloc, files, st1, r1, save);
            l.out.Loaded? ==>
            First(l.out.st, LevelSlot) == First(st1, LevelSlot) && forall s :: 1 <= s < HeadCount ==> Pool(l.out.st, s) == Pool(st1, s)
  {
    hide Stepper, FullSection;
    var (st2, r2) := ReadOn(e.cfg, save, st1, r1, HeadCount, ConvertAt);
    ReadOnKeepsHead(e.cfg, save, st1, r1, HeadCount, ConvertAt);
    if save == e.hellfire {
      ReadOnKeepsHead(e.cfg, save, st2, r2, ConvertAt, GameCount);
    } else {
      ConvertedHead(e, spawn, cap, alloc, files, st1, st2, r2, save);
    }
  }

  /** The converting path of the same: st2 and r2 are what the portals
      left. */
  lemma {:induction false} ConvertedHead(e: Env, spawn: bool, cap: nat, alloc: seq<byte>, files: map<string, seq<byte>>,
                                         st1: Store, st2: Store, r2: Reader, save: bool)
    requires e.cap <= |e.alloc| && cap <= |alloc| && |st2| == |st1| && forall s :: 0 <= s < HeadCount ==> Pool(st2, s) == Pool(st1, s)
    ensures var l := Converted(e, spawn, cap, alloc, files, st1, st2, r2, save);
            l.out.Loaded? ==>
            First(l.out.st, LevelSlot) == First(st1, LevelSlot) && forall s :: 1 <= s < HeadCount ==> Pool(l.out.st, s) == Pool(st1, s)
  {
    var c := ConvertFrom(e, save, files, st2);
    ConvertRestores(e, save, files, st2);
    if !c.fatal {
      assert First(st2, LevelSlot) == First(st1, LevelSlot);
      RestoredHead(e.cfg, save, c.st, st1, r2, Difficulty(st2, e.cfg.dims));
    }
  }

  /** The globals cst ConvertLevels leaves, the head's put back, the rest
      read and the difficulty stored: the head's globals are still there. */
  lemma {:induction false} RestoredHead(cfg: Config, save: bool, cst: Store, st1: Store, r2: Reader, g: int)
    requires |cst| == |st1| && First(cst, LevelSlot) == First(st1, LevelSlot)
    ensures var saved := WithDifficulty(ReadOn(cfg, save, WithHead(cst, st1), r2, ConvertAt, GameCount).0, g, cfg.dims);
            First(saved, LevelSlot) == First(st1, LevelSlot) && forall s :: 1 <= s < HeadCount ==> Pool(saved, s) == Pool(st1, s)
  {
    ReadOnKeepsHead(cfg, save, WithHead(cst, st1), r2, ConvertAt, GameCount);
  }

  /** The tag, the head and the Hellfire level test, from a fresh
      LoadHelper over "game". */
  method OpenGame(archive: Archive, spawn: bool, hellfire: bool, cfg: Config, D: Store) returns (h: Head, file: LoadHelper)
    ensures fresh(file) && h == ReadHead(archive.files, spawn, hellfire, cfg, D) && (h.Head? ==> file.State() == h.r)
  {
    file := new LoadHelper(archive, GameName);
    var ok := file.IsValid(1);
    if !ok {
      return Stopped(NoArchive), file;
    }
    var magic := file.Next(LittleEndian, 4);
    var v := IsHeaderValid(magic, spawn);
    if !v.valid {
      return Stopped(InvalidSave), file;
    }
    var st := ReadSections(file, GameSections(cfg, v.hellfireSave, false), D, 0, HeadCount);
    if !hellfire && Entry(st, LevelSlot, 2) > LastBaseLevel {
      return Stopped(HellfireOnlyLevel), file;
    }
    h := Head(st, file.State(), v.hellfireSave);
  }

  /** The sections from a up to n, as ReadOn. */
  method ReadOnFrom(file: LoadHelper, cfg: Config, save: bool, st: Store, a: nat, n: nat) returns (st': Store)
    requires a <= n <= GameCount
    modifies file
    ensures (st', file.State()) == ReadOn(cfg, save, st, old(file.State()), a, n)
  {
    st' := ReadSections(file, GameSections(cfg, save, IsTown(st)), st, a, n);
  }

  /** LoadGame (firstflag and LoadGameLevel aside). */
  method LoadGame(archive: Archive, e: Env, spawn: bool, cap: nat, alloc: seq<byte>, D: Store) returns (out: Outcome)
    requires e.cap <= |e.alloc| && cap <= |alloc| && LoadGameIn(e, spawn, cap, alloc, archive.files, D).fits
    modifies archive
    ensures var l := LoadGameIn(e, spawn, cap, alloc, old(archive.files), D);
            out == l.out && archive.files == l.files
  {
    var h, file := OpenGame(archive, spawn, e.hellfire, e.cfg, D);
    if h.Stopped? {
      return Failed(h.why);
    }
    out := ReadAfterHead(archive, file, e, spawn, cap, alloc, h.st, h.save);
  }

  /** LoadGame from the seeds on. */
  method ReadAfterHead(archive: Archive, file: LoadHelper, e: Env, spawn: bool, cap: nat, alloc: seq<byte>, st1: Store, save: bool)
    returns (out: Outcome)
    requires e.cap <= |e.alloc| && cap <= |alloc| && AfterHead(e, spawn, cap, alloc, archive.files, st1, file.State(), save).fits
    modifies archive, file
    ensures var l := AfterHead(e, spawn, cap, alloc, old(archive.files), st1, old(file.State()), save);
            out == l.out && archive.files == l.files
  {
    hide Converted, Stepper, FullSection;
    var st := ReadOnFrom(file, e.cfg, save, st1, HeadCount, ConvertAt);
    if save == e.hellfire {
      var st' := ReadOnFrom(file, e.cfg, save, st, ConvertAt, GameCount);
      out := Loaded(st', Difficulty(st, e.cfg.dims), e.hellfire);
    } else {
      out := Converting(archive, file, e, spawn, cap, alloc, st1, st, save);
    }
  }

  /** The same as a method: st is what the portals left. */
  method Converting(archive: Archive, file: LoadHelper, e: Env, spawn: bool, cap: nat, alloc: seq<byte>,
                    st1: Store, st: Store, save: bool) returns (out: Outcome)
    requires e.cap <= |e.alloc| && cap <= |alloc|
    requires Converted(e, spawn, cap, alloc, archive.files, st1, st, file.State(), save).fits
    modifies archive, file
    ensures var l := Converted(e, spawn, cap, alloc, old(archive.files), st1, st, old(file.State()), save);
            out == l.out && archive.files == l.files
  {
    hide Stepper, FullSection;
    var conv, _ := ConvertLevels(archive, e, save, st);
    if conv.NoLevel? {
      return Failed(NoLevelFile);
    }
    out := Resave(archive, file, e, spawn, cap, alloc, st1, conv.st, save, Difficulty(st, e.cfg.dims));
  }

  /** After ConvertLevels left the globals st: the head's globals put
      back, the rest of the sections, then SaveGame with gnDifficulty g. */
  method Resave(archive: Archive, file: LoadHelper, e: Env, spawn: bool, cap: nat, alloc: seq<byte>,
                st1: Store, st: Store, save: bool, g: int) returns (out: Outcome)
    requires cap <= |alloc|
    requires GameFits(WithDifficulty(ReadOn(e.cfg, save, WithHead(st, st1), file.State(), ConvertAt, GameCount).0, g, e.cfg.dims),
                      spawn, e.hellfire, e.cfg, cap, alloc)
    modifies archive, file
    ensures var saved := WithDifficulty(ReadOn(e.cfg, save, WithHead(st, st1), old(file.State()), ConvertAt, GameCount).0, g, e.cfg.dims);
            out == Loaded(saved, g, e.hellfire) &&
            archive.files == old(archive.files)[GameName := GameBlob(saved, spawn, e.hellfire, e.cfg, cap, alloc)]
  {
    var st' := ReadOnFrom(file, e.cfg, save, WithHead(st, st1), ConvertAt, GameCount);
    st' := SaveGame(archive, st', g, spawn, e.hellfire, e.cfg, cap, alloc);
    out := Loaded(st', g, e.hellfire);
  }
}

# Save games and the Lua console completion of a Diablo engine

This project models two parts of the engine in Dafny and proves properties of
them.

**The save-game codec** (`Source/loadsave.cpp`):

- The two byte cursors: `LoadHelper` reads a blob from the save archive, and
  `SaveHelper` fills a buffer and flushes it back into the archive. Reads are
  bounds checked; writes that do not fit are dropped.
- The translation of item indices between the base game's numbering and
  Hellfire's (`RemapItemIdxFromDiablo` / `RemapItemIdxToDiablo`).
- The four-byte save tag and `IsHeaderValid`.
- One codec per entity: items, the player, monsters, missiles, objects,
  lights and visions, portals and quests.
- The whole-game file (`SaveGame` / `LoadGame`).
- The level file (`SaveLevel` / `LoadLevel`).
- The hotkeys file (`SaveHotkeys` / `LoadHotkeys`).
- The one-time conversion of a save made by the other version
  (`ConvertLevels` and LoadGame's branch that calls it). The game file is
  then saved again in the running version's layout, and that version reads
  the player back from it (`Convert.ConvertedReloads`).

**The completion logic of the Lua console** (`Source/lua/autocomplete.cpp`):

- splitting off the last token before the cursor;
- walking a table and its metatable fallbacks for keys that extend the prefix;
- formatting each suggestion;
- capping the set;
- sorting the result.

## How the model is built

**Bytes and cursors.** Bytes are `byte` values. Numbers are unbounded
integers, written and read in an explicit width and byte order
(`Wire.ToLE`, `Wire.ToBE`).

- A cursor is a class (`Cursor.LoadHelper`, `Cursor.SaveHelper`) whose
  fields are the buffer, its length and the position.
- Each method's `ensures` ties the new state to a pure function of the old
  one (`Cursor.ReadNum`, `Cursor.WriteRaw`, ...). Those functions are what
  the rest of the proofs reason about.
- The archive is a class holding a map from blob names to bytes.

**Records and layouts.**

- Each entity's record is a sequence of field values.
- Each Load and Save function is a layout: a list of fields (one-byte, LE16,
  LE32, BE32, LE64, a byte array, or a skip of n bytes), in the source's
  order.
- `Layout.LoadFields` and `Layout.SaveFields` run a layout through the
  cursor, one call per field.
- The round trip is proved once for every layout
  (`Layout.EncodeMatches`, `Layout.DecodeMatches`, `Codec.CodecRoundTrip`).
  Each entity then states what its own fix-ups do on top of it.

**The game and level files.** The globals these files touch are a store:
numbered slots of records.

- Each loop of SaveGame/LoadGame or SaveLevel/LoadLevel is a section: a
  codec with a fixed record count, or a count and an index table read from
  earlier slots.
- `Sections.FileRoundTrip` is the general round trip of such a file.
- `Game.GameRoundTrip` and `Level.LevelRoundTrip` instantiate it with the
  source's own section lists.

**Autocomplete.**

- A Lua table is an entries list with an optional fallback table (its
  metatable).
- The environment lookup of a dotted path is a parameter.
- The unordered suggestion set is a Dafny `set`.

## Model

| member | source | states |
|---|---|---|
| Wire.RoundTrip | Source/loadsave.cpp:17-45 | A value written in n bytes, in either byte order, reads back unchanged whenever it fits. |
| Wire.SignedPattern | Source/loadsave.cpp:1140-1147 | An int stored as a 32-bit pattern and read back as signed returns unchanged within the signed 32-bit range. |
| Cursor.ReadNum | Source/loadsave.cpp:78-102 | next/nextLE/nextBE give the bytes at the position in the given order and advance by the width. When fewer bytes remain, or no buffer exists, they give 0 and leave the position. |
| Cursor.ReadBytes | Source/loadsave.cpp:69-76 | nextBytes copies n bytes and advances. When they are not there, the destination keeps its old contents and the position stays. |
| Cursor.WriteRaw | Source/loadsave.cpp:145-152 | writeBytes copies at the position and advances. A write that would pass the buffer length is dropped whole. |
| Cursor.SkipWrite | Source/loadsave.cpp:140-143 | skip moves the writer's position unchecked. The skipped bytes keep what the buffer held. |
| Cursor.WriteReadNum | Source/loadsave.cpp:154-171 | A number written with writeLE/writeBE/writeByte reads back with the matching next call when it fits its width. |
| Cursor.LoadHelper.constructor | Source/loadsave.cpp:53-56 | pfile_read: the named blob at position 0, or no buffer when the archive lacks it. |
| Cursor.LoadHelper.IsValid | Source/loadsave.cpp:58-62 | True exactly when a buffer exists and size bytes remain after the position. |
| Cursor.LoadHelper.Skip | Source/loadsave.cpp:64-67 | The position moves by size, unchecked. |
| Cursor.LoadHelper.NextBytes | Source/loadsave.cpp:69-76 | Returns the bytes at the position and advances, or returns the destination unchanged and stays, as Cursor.ReadBytes says. |
| Cursor.LoadHelper.Next | Source/loadsave.cpp:78-102 | Returns Cursor.ReadNum's value and moves the state as it says. |
| Cursor.LoadHelper.NextBool8 | Source/loadsave.cpp:104-107 | True exactly when the byte read is non-zero. |
| Cursor.LoadHelper.NextBool32 | Source/loadsave.cpp:109-112 | True exactly when the 32-bit value read is non-zero. |
| Cursor.SaveHelper.constructor | Source/loadsave.cpp:127-132 | A writer over a fresh buffer of the given length, at position 0. |
| Cursor.SaveHelper.IsValid | Source/loadsave.cpp:134-138 | True exactly when size bytes fit after the position. |
| Cursor.SaveHelper.Skip | Source/loadsave.cpp:140-143 | The position moves by size, unchecked. |
| Cursor.SaveHelper.WriteBytes | Source/loadsave.cpp:145-152 | The buffer and the position become what Cursor.WriteRaw gives. |
| Cursor.SaveHelper.WriteByte | Source/loadsave.cpp:154-157 | The state becomes what Cursor.WriteNum gives for one byte: the value reduced modulo 256. |
| Cursor.SaveHelper.Write | Source/loadsave.cpp:159-171 | writeLE/writeBE: the state becomes what Cursor.WriteNum gives, the value truncated to the width in the given order. |
| Cursor.SaveHelper.Flush | Source/loadsave.cpp:173-181 | The first m_bufferPtr bytes go to the archive under the helper's name, once. Later flushes change nothing. |
| Layout.EncodeMatches | Source/loadsave.cpp:1138-1225 | A Save layout writes a well-formed record that fits in exactly Size bytes at the position, and every field's bytes hold its value. |
| Layout.DecodeMatches | Source/loadsave.cpp:191-279 | A Load layout over bytes that match a record yields that record, with the destination kept at skipped slots, and advances by Size. |
| Layout.EncodeMatchesCoarse | Source/loadsave.cpp:588-591 | What a Save layout writes matches every Load layout that differs only by turning fields into skips. This is how LoadMonster skips the two hit bytes SaveMonster writes. |
| Layout.DecodeExhausted | Source/loadsave.cpp:78-90 | With the position at the end of the blob, or no blob, every read of a record fails. Numbers read as 0, arrays and skipped slots keep the destination, and the position moves only by the skips. |
| Layout.DecodeWellFormed | Source/loadsave.cpp:78-90 | Whatever the bytes, a decode into a well-formed destination yields a well-formed record. |
| Layout.LoadFields | Source/loadsave.cpp:191-279 | Running a Load function's calls on a LoadHelper leaves the record and the reader state that Layout.DecodeFields gives. |
| Layout.SaveFields | Source/loadsave.cpp:1138-1225 | Running a Save function's calls leaves the writer state that Layout.EncodeFields gives. |
| Codec.CodecRoundTrip | Source/loadsave.cpp:281-286 | Save then Load with one codec gives the codec's expected record, and the read ends where the write ended. |
| Codec.AllRoundTrip | Source/loadsave.cpp:1227-1232 | A run of records saved and loaded back gives each record's expected value, and the read ends where the write ended. |
| Codec.LoadArray | Source/loadsave.cpp:281-286 | LoadItems and its kin: a[0..n) is loaded in order, each record into its own old contents, and the rest of the array is unchanged. |
| Codec.SaveArray | Source/loadsave.cpp:1227-1232 | SaveItems and its kin: a[0..n) is saved in order, as Codec.SaveAll says. |
| Records.PlainRoundTrip | Source/loadsave.cpp:617-666 | A missile, object, light or vision record comes back field by field. The skipped address slots keep the destination's values. |
| Records.ExactRoundTrip | Source/loadsave.cpp:750-767 | A record whose layout skips nothing comes back exactly. |
| Records.PortalShape | Source/loadsave.cpp:788-798 | A portal takes 24 bytes and comes back exactly. |
| Records.LoadMissile | Source/loadsave.cpp:617-666 | LoadMissile's reads in order, as the missile layout decodes. |
| Records.SaveMissile | Source/loadsave.cpp:1540-1589 | SaveMissile's writes, as the missile layout encodes. |
| Records.LoadObject | Source/loadsave.cpp:668-705 | LoadObject's reads, as the object layout decodes. |
| Records.SaveObject | Source/loadsave.cpp:1591-1628 | SaveObject's writes, as the object layout encodes. |
| Records.LoadLight | Source/loadsave.cpp:750-786 | LoadLighting and LoadVision, as the light layout decodes. |
| Records.SaveLight | Source/loadsave.cpp:1667-1703 | SaveLighting and SaveVision, as the light layout encodes. |
| Records.LoadPortal | Source/loadsave.cpp:788-798 | LoadPortal, as the portal layout decodes. |
| Records.SavePortal | Source/loadsave.cpp:1705-1715 | SavePortal, as the portal layout encodes. |
| Remap.FromDiablo | Source/loadsave.cpp:800-816 | The base-to-Hellfire index: IDI_SORCEROR goes to 166. Other indices below 83 stay, 83-87 move up by 4, 88-155 by 5, and 156 and up by 10. |
| Remap.ToDiablo | Source/loadsave.cpp:818-834 | The Hellfire-to-base index: 166 goes to IDI_SORCEROR. The result is -1 exactly for -1, the oils (83-86), the Scroll of Search (92) and 161 and up other than 166. The rest shift down. |
| Remap.BaseRoundTrip | Source/loadsave.cpp:800-834 | Base indices up to 155 survive base to Hellfire to base. 156 goes to 166 and returns as IDI_SORCEROR. |
| Remap.HellfireRoundTrip | Source/loadsave.cpp:800-834 | A Hellfire index survives Hellfire to base to Hellfire exactly when it has a base counterpart and is not IDI_SORCEROR, which returns as 166. |
| Remap.FromDiabloInjective | Source/loadsave.cpp:800-816 | Distinct base indices get distinct Hellfire indices. |
| Header.IsHeaderValid | Source/loadsave.cpp:836-852 | SHAR and SHLF are accepted by every build, RETL and HELF only by a full build. gbIsHellfireSaveGame is set exactly for an accepted SHLF or HELF. |
| Header.SaveTag | Source/loadsave.cpp:1721-1730 | The tag SaveGame writes for the build's spawn and Hellfire flags. |
| Header.SaveTagAccepted | Source/loadsave.cpp:1721-1730 | A build accepts its own tag, and the tag announces the version it was written with. |
| Header.CrossBuild | Source/loadsave.cpp:836-852 | A full build reads every tag any build writes. A spawn build rejects the full builds' tags. |
| Items.ItemWireSize | Source/loadsave.cpp:191-279 | An item record is 368 bytes in the base layout and 372 in Hellfire's. |
| Items.HellfireItemRoundTrip | Source/loadsave.cpp:191-279 | In the Hellfire layout an available item with an index comes back as written, with the skipped slots from the destination. |
| Items.BaseItemRoundTrip | Source/loadsave.cpp:265-268 | In the base layout an available item whose index has a base counterpart, other than IDI_SORCEROR, comes back as written, except that _iDamAcFlags is cleared. |
| Items.SorcerorStaffReturnsAs166 | Source/loadsave.cpp:800-816 | An item with index IDI_SORCEROR saved in the base layout comes back with index 166. |
| Items.DroppedItemIsEmpty | Source/loadsave.cpp:275-278 | An index the base layout cannot hold, or an item the game does not offer, loads with index 0 and type ITYPE_NONE. |
| Items.LoadItemData | Source/loadsave.cpp:191-279 | LoadItemData's reads and fix-ups leave what the item codec's load gives. |
| Items.SaveItem | Source/loadsave.cpp:1138-1225 | SaveItem's remap and writes leave what the item codec's save gives. |
| Player.BlockExpected | Source/loadsave.cpp:377-380 | A block chance of 0 comes back as the class default from ToBlkTbl. Every other written field returns. |
| Player.TailSurvives | Source/loadsave.cpp:478-500 | The player's tail survives a round trip exactly when the field the version drops already holds what loading gives it. |
| Player.VitalsPair | Source/loadsave.cpp:412-415 | In memory each visited list has NUMLEVELS (25) entries in every version. The file holds the first giNumberOfLevels of each, between the same fields. |
| Player.VitalsExpected | Source/loadsave.cpp:381-444 | Vitals saved and loaded back return every field the layout reads, the first giNumberOfLevels visited flags of each list included. Skipped addresses and the visited entries past giNumberOfLevels keep the destination's values. |
| Player.VitalSurvives | Source/loadsave.cpp:412-415 | A vitals field survives exactly when the layout reads it or the destination already holds its value. |
| Player.PlayerRoundTrip | Source/loadsave.cpp:288-514 | A saved player loaded back, part by part: plain parts return every written field, the block part as Player.BlockExpected says, and the items as the item codec gives. |
| Player.LoadPlayer | Source/loadsave.cpp:288-514 | LoadPlayer reads the parts in order into the player's old values. |
| Player.SavePlayer | Source/loadsave.cpp:1234-1446 | SavePlayer writes the parts in order. |
| Monsters.MonsterSize | Source/loadsave.cpp:518-615 | A monster record is 216 bytes. mHit is at byte 196 and mHit2 at 199. |
| Monsters.Clamp | Source/loadsave.cpp:1518-1521 | The saved hit chance is at most SCHAR_MAX and at most the chance itself, and is equal to it when it fits. |
| Monsters.MonsterRoundTrip | Source/loadsave.cpp:518-615 | A monster saved and loaded consumes 216 bytes. It comes back with the destination's hit chances, and with mlid set to NO_LIGHT when it equals the local player's light id. |
| Monsters.SavedHitBytes | Source/loadsave.cpp:1518-1521 | The hit bytes SaveMonster writes hold the clamped values. |
| Monsters.LoadMonster | Source/loadsave.cpp:518-615 | LoadMonster's reads and the light repair, as the monster codec's load gives. |
| Monsters.SaveMonster | Source/loadsave.cpp:1448-1538 | SaveMonster's clamps and writes, as the monster codec's save gives. |
| Quests.QuestWireSize | Source/loadsave.cpp:718-748 | A quest record is 48 bytes in Hellfire's layout and 44 in the base layout. |
| Quests.GatherSpread | Source/loadsave.cpp:730-735 | Reading undoes the padding writing adds, except that the base layout keeps only _qmsg's low byte. |
| Quests.QuestRoundTrip | Source/loadsave.cpp:718-748 | A saved quest comes back with its five globals, whatever the destination held. The base layout cuts _qmsg to a byte. |
| Quests.MessageSurvives | Source/loadsave.cpp:730-735 | A _qmsg below 256 survives either layout. The base layout loses every larger one. |
| Quests.LoadQuest | Source/loadsave.cpp:718-748 | LoadQuest's reads, as the quest codec's load gives. |
| Quests.SaveQuest | Source/loadsave.cpp:1635-1665 | SaveQuest's writes, as the quest codec's save gives. |
| QuestGlobals.QuestsRead | Source/loadsave.cpp:743-747 | LoadGame's quest loop: quest k gets record k's fields, and the five globals are those of the last record read. |
| QuestGlobals.QuestSectionRestores | Source/loadsave.cpp:996-997 | The quest section saved and loaded gives back every quest, and the globals as they were. |
| QuestGlobals.QuestsReloaded | Source/loadsave.cpp:1660-1664 | SaveGame then LoadGame restores ReturnLvlX, ReturnLvlY, ReturnLvl, ReturnLvlT and DoomQuestState. |
| Grid.Masked | Source/loadsave.cpp:1817 | A saved dFlags cell has BFLAG_MISSILE, BFLAG_VISIBLE and BFLAG_DEAD_PLAYER cleared and every other bit kept. |
| Grid.MaskedIdempotent | Source/loadsave.cpp:1817 | Clearing the volatile bits twice is clearing them once. |
| Grid.MaskedKeepsStable | Source/loadsave.cpp:1817 | A cell without volatile bits is saved unchanged. |
| Grid.FlagsRoundTrip | Source/loadsave.cpp:1815-1818 | Every dFlags cell comes back from a round trip with its volatile bits cleared. |
| Grid.LoadGrid | Source/loadsave.cpp:1061-1076 | The nested loops read every cell in loop order, as the grid codec's load gives. |
| Grid.SaveGrid | Source/loadsave.cpp:1811-1826 | The nested loops write every cell in loop order, masked for dFlags, as the grid codec's save gives. |
| Grid.ClearGrid | Source/loadsave.cpp:2033-2036 | Every cell of the grid is 0 afterwards. |
| Hotkeys.HotkeyShape | Source/loadsave.cpp:923-938 | The hotkeys record has ten fields, no padding and 25 bytes: the length SaveHotkeys allocates. |
| Hotkeys.LoadFrom | Source/loadsave.cpp:904-921 | A missing or empty blob leaves the player's hotkeys unchanged. |
| Hotkeys.HotkeysRoundTrip | Source/loadsave.cpp:904-938 | The blob SaveHotkeys writes is 25 bytes, and LoadHotkeys reads back exactly the saved hotkeys. |
| Hotkeys.LoadHotkeys | Source/loadsave.cpp:904-921 | LoadHotkeys gives the hotkeys that Hotkeys.LoadFrom gives for the archive. |
| Hotkeys.SaveHotkeys | Source/loadsave.cpp:923-938 | SaveHotkeys flushes the 25-byte blob under "hotkeys". |
| Files.LoadsBack | Source/loadsave.cpp:1018-1050 | A section list loads back what was saved, each part as Sections.RestoreSection predicts. |
| Files.WriteAndFlush | Source/loadsave.cpp:1868 | The sections are written after what the file holds, then the flush stores the bytes up to the position. |
| Sections.ReadSection | Source/loadsave.cpp:1018-1050 | `for (i = 0; i < n; i++) LoadX(&file, ks[i])`, with the count and the indices read from the store as it stands, leaves what Sections.LoadSection gives. |
| Sections.WriteSection | Source/loadsave.cpp:1770-1800 | The matching save loop writes what Sections.SavedRecords gives. |
| Sections.FileRoundTrip | Source/loadsave.cpp:1018-1050 | Sections saved and loaded from the same bytes restore each section as its codec restores it. The counts and indices are read from keys written before them. |
| Sections.LoadUntouched | Source/loadsave.cpp:1018-1050 | Loading sections leaves every slot none of them writes. |
| Game.SeedExpected | Source/loadsave.cpp:985-988 | A level's seed comes back exactly. The level type written beside it is skipped on load. |
| Game.SeedWritten | Source/loadsave.cpp:1755-1758 | Each entry is written as the seed followed by gnLevelTypeTbl's entry for that level. |
| Game.VitalsReloaded | Source/loadsave.cpp:381-444 | After SaveGame and LoadGame the player's vitals are as Player.VitalsExpected gives for the version's giNumberOfLevels. |
| Game.Difficulty | Source/loadsave.cpp:992-994 | gnDifficulty is pDifficulty, or DIFF_NORMAL when that is not a difficulty. |
| Game.HeadSame | Source/loadsave.cpp:967-980 | What LoadGame reads before the town test does not depend on that test. |
| Game.GameBlobHolds | Source/loadsave.cpp:1717-1873 | The blob SaveGame flushes holds the tag at 0 and the sections' parts from byte 4 on. |
| Game.GameRoundTrip | Source/loadsave.cpp:944-1136 | SaveGame then LoadGame on the same build: a base game on a Hellfire-only level fails; otherwise the sections come back as their codecs restore them, with the difficulty from the player. |
| Game.LevelReloaded | Source/loadsave.cpp:967-972 | setlevel, setlvlnum and currlevel come back. leveltype is recomputed from gnLevelTypeTbl for a regular level (LevelFix). |
| Game.KeysReloaded | Source/loadsave.cpp:1018-1050 | The counts and index tables come back exactly: outside town all of them, in town those that are saved there. |
| Game.DifficultyRoundTrip | Source/loadsave.cpp:1760 | The difficulty SaveGame stores in the player is the one LoadGame sets again. |
| Game.FlagsReloaded | Source/loadsave.cpp:1065-1068 | dFlags comes back with its volatile bits cleared, in town too. |
| Game.SaveGame | Source/loadsave.cpp:1717-1873 | SaveGame stores gnDifficulty in the player, writes the tag and the sections, and flushes them under "game". |
| Level.LoadLevel | Source/loadsave.cpp:1959-2050 | LoadLevel gives what Level.LoadLevelFrom gives: no level when the blob is missing; otherwise the sections read, with dMissile cleared outside town. |
| Level.SaveLevel | Source/loadsave.cpp:1875-1957 | SaveLevel seeds level 0, flushes the sections under the level's name, and marks the level visited. |
| Level.SeedStored | Source/loadsave.cpp:1879-1880 | When currlevel is 0, glSeedTbl[0] holds the seed afterwards, read back as the signed 32-bit value it was. On any other level nothing changes. No other slot changes. |
| Level.VisitedMarked | Source/loadsave.cpp:1953-1956 | Exactly one visited flag is set: _pLvlVisited[currlevel] on a regular level, _pSLvlVisited[setlvlnum] on a set level. Nothing else changes, and marking twice is marking once. |
| Level.LoadLevelKeeps | Source/loadsave.cpp:1959-2050 | LoadLevel leaves every global the level file does not hold, and the level globals. |
| Level.CountsWritten | Source/loadsave.cpp:1893-1895 | The three counts are always written, so a level blob holds at least 4 bytes and LoadLevel's isValid() passes on it. |
| Level.LevelRoundTrip | Source/loadsave.cpp:1875-2050 | SaveLevel's blob, loaded by LoadLevel of the same version, restores each section as its codec restores it. |
| Level.LevelKeysReloaded | Source/loadsave.cpp:1975-1977 | The three counts and itemactive come back exactly. Outside town monstactive and objectactive do too. |
| Level.LevelFlagsReloaded | Source/loadsave.cpp:1817 | dFlags comes back with its volatile bits cleared, in town too. |
| Level.MissilesReloaded | Source/loadsave.cpp:2033-2036 | dMissile is never read: outside town every cell becomes 0, and in town it is left as it was. |
| Convert.ConvertLevels | Source/loadsave.cpp:854-902 | ConvertLevels visits the regular levels 0 to giNumberOfLevels - 1, then each available quest whose level type is not DTYPE_NONE. Each existing level is loaded in the save's layout and saved in the running one. The level globals are restored at the end. |
| Convert.Loop | Source/loadsave.cpp:864-893 | A whole loop of passes leaves what Convert.Steps gives. |
| Convert.LoopPass | Source/loadsave.cpp:864-893 | Pass i of a loop, after the first i passes, leaves the first i + 1 passes; when LoadLevel stops the program there, the loop ends with it. |
| Convert.RegularLevel | Source/loadsave.cpp:864-874 | One pass of the regular loop: skip a level without a file, otherwise set leveltype and transcode. |
| Convert.QuestLevel | Source/loadsave.cpp:876-893 | One pass of the quest loop: skip unavailable quests, quests of type DTYPE_NONE and missing files. |
| Convert.TranscodeLevel | Source/loadsave.cpp:872-873 | LoadLevel then SaveLevel of the level the globals name. ok is false when LoadLevel stops the program. |
| Convert.ConvertRestores | Source/loadsave.cpp:895-901 | Unless a LoadLevel stopped the program, setlevel, setlvlnum, currlevel and leveltype are restored and the quests are left as they were. |
| Convert.TranscodedReloads | Source/loadsave.cpp:872-873 | A rewritten level is saved under its temporary name in the running layout, and LoadLevel of that version reads it back. |
| Convert.StepsMonotone | Source/loadsave.cpp:864-874 | The loop has room for n passes if it has room for m >= n, and a stop at n ends the loop. |
| Convert.LoadGame | Source/loadsave.cpp:944-1136 | LoadGame: tag, head, seeds, player, quests, portals and difficulty. For a save of the other version it converts, reads the rest, and saves the game again in the running layout, the player's vitals included (Convert.ConvertedReloads). |
| Convert.SameVersionLoad | Source/loadsave.cpp:1001-1002 | A save of the running version converts nothing and writes nothing. |
| Convert.OwnTagNotConverted | Source/loadsave.cpp:1001-1002 | A game file carrying the running version's tag is never converted. |
| Convert.ConvertsOnce | Source/loadsave.cpp:1132-1135 | After LoadGame has converted a save and written it again, the next LoadGame converts nothing. |
| Convert.HeadKept | Source/loadsave.cpp:1008-1013 | A LoadGame that succeeds returns setlevel, setlvlnum, currlevel, leveltype, the view and the four counts as its head read them, whether or not it converts. |
| Convert.ConvertedReloads | Source/loadsave.cpp:1132-1133 | The game file written after a conversion, loaded by the running version, converts nothing and gives the round trip of the globals LoadGame returned: the player's vitals (_pHPBase, _pExperience, _pGold, the visited flags up to giNumberOfLevels) come back. |
| Convert.ConvertedBlob | Source/loadsave.cpp:1132-1133 | After a conversion the game file holds the blob SaveGame makes of the returned globals, and their level is one the running version can hold. |
| Convert.OpenGame | Source/loadsave.cpp:949-983 | The tag check, the head and the Hellfire level test, from a fresh LoadHelper over "game". |
| Convert.Resave | Source/loadsave.cpp:1132-1133 | After the conversion the head's globals are put back, the rest is read, and SaveGame writes the file in the running layout from the globals as read. |
| Autocomplete.IdentifierCharExactly | Source/lua/autocomplete.cpp:221-229 | IsIdentifierChar holds exactly for the ASCII letters, the digits and '_'. |
| Autocomplete.ExprCharExactly | Source/lua/autocomplete.cpp:231-234 | IsIdentifierOrExprChar holds exactly for those and - + * / =. |
| Autocomplete.LastTokenLongest | Source/lua/autocomplete.cpp:27-35 | The last token is the longest suffix without a space, '(' or ','. |
| Autocomplete.LastTokenUnique | Source/lua/autocomplete.cpp:27-35 | Any break-free suffix that starts the text or follows a break is the last token. |
| Autocomplete.GetLastToken | Source/lua/autocomplete.cpp:27-35 | The backward loop returns the last token: break-free, maximal, and empty for empty text. |
| Autocomplete.RemoveFirstArgument | Source/lua/autocomplete.cpp:79-91 | "(...)" and a signature without ',' or ')' are unchanged. Otherwise the first parameter is dropped up to the first ',' (and the space after it) or ')'. |
| Autocomplete.FirstLine | Source/lua/autocomplete.cpp:195-199 | The docstring up to its first newline: a prefix without a newline, followed in the docstring by a newline or nothing. |
| Autocomplete.SuggestText | Source/lua/autocomplete.cpp:182-200 | The completion completes the key, with "()" and a cursor adjustment of -1 for callables. The shown text starts with the key. |
| Autocomplete.EntriesBounds | Source/lua/autocomplete.cpp:156-204 | The loop keeps what the set held and adds only what the entries offer. It misses an offer only once the set has reached the cap. |
| Autocomplete.TableBounds | Source/lua/autocomplete.cpp:152-210 | Below the cap, every suggestion the table and its fallbacks offer is made, and nothing else. |
| Autocomplete.CapNotHardBound | Source/lua/autocomplete.cpp:201-209 | The cap is not a bound on the result: a fallback can still add to a set the table filled. |
| Autocomplete.SuggestionsFromTable | Source/lua/autocomplete.cpp:152-210 | The loop with its break at the cap, then the fallback, gives what Autocomplete.FromTable gives. |
| Autocomplete.BeforeTotal | Source/lua/autocomplete.cpp:291-292 | The declared suggestion order is total. |
| Autocomplete.BeforeTransitive | Source/lua/autocomplete.cpp:291-292 | The declared suggestion order is transitive. |
| Autocomplete.Insert | Source/lua/autocomplete.cpp:291-292 | Inserting into a sorted sequence keeps it sorted and adds exactly the element. |
| Autocomplete.SortSuggestions | Source/lua/autocomplete.cpp:291-292 | c_sort over the set gives a sorted, duplicate-free sequence of exactly its elements. |
| Autocomplete.CharBeforeBreak | Source/lua/autocomplete.cpp:252-268 | The character before the token is '\0', ' ', '(' or ','. So the test for a '.' before the environment search never fires. |
| Autocomplete.SuggestionsMatchPrefix | Source/lua/autocomplete.cpp:238-293 | Every suggestion shows a text that starts with the part of the token after its last '.' or ':', and completes with non-empty text. |
| Autocomplete.TableSearchComplete | Source/lua/autocomplete.cpp:282-288 | Below the cap, nothing a searched table offers for the prefix is missing. |
| Autocomplete.SuggestionsForToken | Source/lua/autocomplete.cpp:255-288 | The split at the last '.' or ':', then the environment or the target search, gives what Autocomplete.TokenSuggestions gives. |
| Autocomplete.SearchEnv | Source/lua/autocomplete.cpp:267-271 | Searching the environment's table and then the table "_G" holds gives what Autocomplete.EnvSuggestions gives. |
| Autocomplete.SearchTarget | Source/lua/autocomplete.cpp:282-288 | Searching what the path names (a table, or a userdata's metatable with the ':' query) gives what Autocomplete.TargetSuggestions gives. |
| Autocomplete.EnvMatchesPrefix | Source/lua/autocomplete.cpp:267-271 | Every suggestion the environment search makes shows a text starting with the prefix, and inserts something. |
| Autocomplete.TargetMatchesPrefix | Source/lua/autocomplete.cpp:282-288 | Every suggestion the search of a table or a metatable makes shows a text starting with the prefix, and inserts something. |
| Autocomplete.TextPrefix | Source/lua/autocomplete.cpp:242 | text.substr(0, cursorPos): the first cursorPos characters, or the whole text when the cursor is past its end. |
| Autocomplete.TextSuffix | Source/lua/autocomplete.cpp:244 | text.substr(cursorPos): what follows the prefix, so that the two make up the text. |
| Autocomplete.GetLuaAutocompleteSuggestions | Source/lua/autocomplete.cpp:238-293 | The result is sorted and holds exactly Autocomplete.SuggestionSet. It is empty when the cursor is inside or right before an identifier, or right after '(' or ','. A cursor past the end of an empty text gives an empty result; past the end of a non-empty text, substr throws std::out_of_range, reported as `outOfRange` with an empty result. |

## Left out

- Cursor.LoadHelper.Skip: the position is an unbounded `nat`. The source's
  `Uint32 m_bufferPtr` could wrap around after 2^32 bytes of skips. No blob
  comes near that size, so a wrap that makes isValid pass again is not
  modelled.
- Cursor.SaveHelper.Skip: the position is an unbounded `nat`. It does not
  model `Uint32 m_bufferPtr` wrapping around.
- Sections.SavedRecord: the source indexes a pool array with an id from a
  table, unchecked. A save of an id outside the pool writes a zero-filled
  blank record (`Sections.Blank`) rather than whatever memory lies past the
  array.
- Sections.LoadInto: a load into an id outside the pool reads into a
  scratch blank record and drops it, rather than writing past the array.
- Game.SaveGame: requires `GameFits`, meaning the sections end inside the
  buffer. The source assumes FILEBUFF is large enough, and its skip() is
  unchecked, so an overflowing save is undefined behaviour there.
- Level.SaveLevel: requires `LevelFits` for the same reason.
- Convert.ConvertLevels and Convert.LoadGame: require that every SaveLevel
  and SaveGame they make fits its buffer (`fits`), for the same reason.
- Game.GameRoundTrip, Level.LevelRoundTrip and the entity round trips
  require well-formed records: every number fits the width it is written
  in. This stands in for the truncating writes, which Cursor.WriteNum does
  model (values are reduced modulo 256^n). The round trips are stated only
  where nothing is truncated.
- Monsters.MonsterRoundTrip: mlid is compared with `plr[myplr]._plid` as
  the byte read (0..255). In the source `mlid` is a signed char, so a stored
  byte of 0xFF is -1 (NO_LIGHT) there. The model keeps the unsigned byte and
  writes NO_LIGHT as 0xFF, which gives the same bytes on disk.
- Level.LoadLevelFrom: the `_lunflag` loop (loadsave.cpp:2046-2049) is left
  out. It sets `_lunflag` on the lights of the players on the current level,
  and the store holds only the local player.
- Player.LoadPlayer: CalcPlrItemVals, which LoadPlayer calls last, is left
  out. It computes derived stats from the items, outside this file.
- LoadGame's side effects are not modelled: LoadGameLevel, SyncInitPlr,
  SyncPlrAnim, SpawnPremium (1114-1115), AutomapZoomReset, ResyncQuests,
  ProcessLightList, RedoPlayerVision, ProcessVisionList,
  missiles_process_charge, ResetPal, SetCursor_ and the `firstflag` argument
  (1119-1130). They are engine state outside the save file, not bytes read
  or written.
- LoadLevel's side effects are not modelled: SyncObjectAnim (under
  `!gbSkipSync`, 1990-1993), SetDead (1972), SyncMonsterAnim and the sync
  block (2039-2044). `gbSkipSync` is read only by these, so ConvertLevels
  setting it has no modelled effect.
- SaveLevel's DoUnVision (1877) and SaveGame's trailing pfile calls
  (1870-1872) are left out, for the same reason.
- LoadLevel stops the program when the blob is missing (`app_fatal`). This
  is modelled as the `NoLevel` result. The globals are then left as they
  were, and Convert.TranscodeLevel reports `ok == false`.
- Calls into code outside this file are parameters:
  - pfile_read, pfile_write_save_file and LevelFileExists: the archive map;
  - GetPermLevelNames and GetTempLevelNames: name functions;
  - AdvanceRndSeed: the seed argument;
  - IsItemAvailable: an availability predicate;
  - ToBlkTbl and gnLevelTypeTbl: the `Config` parameters `toBlk` and
    `levelType`, read by both the save and the load;
  - the pool and grid dimensions (MAXMONSTERS, MAXDUNX, ...): `Limits`.
- The head values LoadGame keeps in locals (`_ViewX` ... `_nobjects`,
  1008-1013) are kept as the head's store slots and put back from there.
- Convert.QuestLevel: a quest record the store lacks reads as 0,
  QUEST_NOTAVAIL. DTYPE_NONE is compared as the stored byte 0xFF.
- GetValueInfo and GetValueInfoForUserdata (autocomplete.cpp:93-145),
  GetLuaUserdataMemberType and the sol2 calls are left out. Each table
  entry carries the callable flag, signature, docstring and member type they
  would compute. The path walk over `SplitByChar` (271-281) is the `lookup`
  parameter. Table iteration order is the order of the entries list.
- The header declaring LuaAutocompleteSuggestion is not part of this model.
  The suggestion order used by c_sort (`Autocomplete.Before`:
  lexicographic by display text, completion text, then cursor adjustment)
  and equality are therefore declared.
- Strings are sequences of Unicode scalar values, not UTF-8 bytes, so
  `cursorPos` counts characters.
- Autocomplete.GetLuaAutocompleteSuggestions: the std::out_of_range thrown
  for a cursor past the end of a non-empty text is the `outOfRange` result;
  where the exception propagates to is outside this file.
- Floating point, rendering, networking and the Lua interpreter are outside
  the model.

## Notes on the code and its description

The model follows the code where its description differs:

- **Exhaustion.** A failed read leaves the position where it is, so
  exhaustion is not sticky: a later, shorter read can still succeed, since
  `isValid` only compares lengths. `Layout.DecodeExhausted` states the case
  where nothing is left to read.
- **dMissile.** LoadLevel clears dMissile outside town rather than reading
  it (`Level.MissilesReloaded`).
- **What ConvertLevels restores.** It restores setlevel, setlvlnum,
  currlevel and leveltype, not the difficulty.
- **The sorcerer's staff.** `RemapItemIdxToDiablo` maps 166 to
  IDI_SORCEROR rather than to "no counterpart". `RemapItemIdxFromDiablo`
  maps IDI_SORCEROR to 166, so an item held with index IDI_SORCEROR and
  saved in the base layout returns as 166
  (`Items.SorcerorStaffReturnsAs166`). Base index 156 also lands on 166, so
  the base round trip holds only up to 155 (`Remap.BaseRoundTrip`).
- **When indices are translated.** LoadItemData translates whenever the save
  is not a Hellfire save, and SaveItem whenever the running game is not
  Hellfire, whatever the other side's version.
- **The Lua console.** The description of the save system does not cover
  the console's completion code, which is modelled from the code alone.

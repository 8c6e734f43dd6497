/** The quest loops of SaveGame and LoadGame (Source/loadsave.cpp) and the
    five globals that travel with every quest: ReturnLvlX, ReturnLvlY,
    ReturnLvl, ReturnLvlT and DoomQuestState are single globals (the slot
    GlobalsSlot of the store), written after each quest by SaveQuest and
    set again after each quest read by LoadQuest, so the last quest read
    decides them. */
module QuestGlobals {
  import opened Wire
  import opened Cursor
  import opened Layout
  import opened Codec
  import opened Header
  import opened Sections
  import opened Files
  import opened Game
  import Quests

  /** The first m quests of P have their twelve fields and G holds the
      five globals. */
  ghost predicate JoinShaped(P: seq<Record>, G: Record, m: nat)
  {
    m <= |P| && |G| == 5 && forall k :: 0 <= k < m ==> |P[k]| == Quests.ReturnSlot
  }

  /** The first m records read are quests with their globals. */
  ghost predicate QuestRecords(xs: seq<Record>, m: nat)
  {
    m <= |xs| && forall k :: 0 <= k < m ==> WellFormed(Quests.QuestMemory(), xs[k])
  }

  /** The quest part of a record read: its first twelve fields. */
  function QuestPart(x: Record): (q: Record)
    requires |x| == Quests.QuestLen
    ensures |q| == Quests.ReturnSlot && q + Quests.Globals(x) == x
  {
    x[..Quests.ReturnSlot]
  }

  /** Reading the quest records xs: quest k gets record k's fields (the
      base layout keeps _qmsg's low byte), the quests after the last one
      read keep theirs, and the globals hold the values of the last record
      read, or their old values when no quest is read. */
  lemma {:induction false} RestoreQuests(hellfire: bool, n: nat, P: seq<Record>, G: Record, xs: seq<Record>, m: nat)
    requires m <= n && |xs| == n && QuestRecords(xs, m) && JoinShaped(P, G, m)
    ensures var res := RestoreJoined(Copies(Quests.QuestCodec(hellfire), n), P, G, Quests.ReturnSlot, xs, m);
            (m == 0 ==> res.1 == G) &&
            (0 < m ==> res.1 == Quests.Globals(xs[m - 1])) &&
            (forall k :: 0 <= k < m ==> res.0[k] == QuestPart(Quests.Truncated(xs[k], hellfire))) &&
            (forall k :: m <= k < |P| ==> res.0[k] == P[k])
  {
    if 0 < m {
      var cs := Copies(Quests.QuestCodec(hellfire), n);
      RestoreQuests(hellfire, n, P, G, xs, m - 1);
      var prev := RestoreJoined(cs, P, G, Quests.ReturnSlot, xs, m - 1);
      assert |prev.1| == 5 by {
        if m - 1 > 0 {
          assert WellFormed(Quests.QuestMemory(), xs[m - 2]);
        }
      }
      assert prev.0[m - 1] == P[m - 1];
      RestoreQuest(hellfire, prev.0, prev.1, m - 1, xs[m - 1]);
      var res := RestoreJoined(cs, P, G, Quests.ReturnSlot, xs, m);
      assert res.0 == prev.0[m - 1 := QuestPart(Quests.Truncated(xs[m - 1], hellfire))];
      forall k | 0 <= k < m
        ensures res.0[k] == QuestPart(Quests.Truncated(xs[k], hellfire))
      {
        if k < m - 1 {
          assert res.0[k] == prev.0[k];
        }
      }
    }
  }

  /** One quest read: into quest k and into the globals. */
  lemma {:induction false} RestoreQuest(hellfire: bool, Q: seq<Record>, H: Record, k: nat, x: Record)
    requires k < |Q| && |Q[k]| == Quests.ReturnSlot && |H| == 5 && WellFormed(Quests.QuestMemory(), x)
    ensures RestoreJoinedInto(Quests.QuestCodec(hellfire), Q, H, k, Quests.ReturnSlot, x) ==
            (Q[k := QuestPart(Quests.Truncated(x, hellfire))], Quests.Globals(x))
  {
    var c := Quests.QuestCodec(hellfire);
    Quests.MemoryShape();
    Quests.QuestExpected(x, Q[k] + H, hellfire);
    Quests.GlobalsSurvive(x, hellfire);
    assert Joins(c, Q, k, H, Quests.ReturnSlot);
  }

  /** The bytes from base on hold the quest records xs in the layout of
      a version. */
  ghost predicate QuestsAt(hellfire: bool, xs: seq<Record>, bs: seq<byte>, base: nat)
  {
    var cs := Copies(Quests.QuestCodec(hellfire), |xs|);
    AllValid(cs) && AllSized(cs, xs) && RecordsAt(cs, xs, bs, base, |xs|)
  }

  /** LoadGame's quest loop, each load call as LoadQuest makes it, over
      bytes that hold n quest records: quest k is record k as its layout
      keeps it, and the globals are those of the last record, whatever the
      earlier records held. */
  lemma {:induction false} QuestsRead(load: LoadStep, hellfire: bool, P: seq<Record>, G: Record, xs: seq<Record>, r: Reader)
    requires LoadsRecords(load) && QuestRecords(xs, |xs|) && JoinShaped(P, G, |xs|) && 0 < |xs|
    requires r.present && r.ptr <= |r.data| && QuestsAt(hellfire, xs, r.data, r.ptr)
    ensures var n := |xs|;
            var res := LoadJoined(load, Copies(Quests.QuestCodec(hellfire), n), P, G, Quests.ReturnSlot, r, n);
            res.0.1 == Quests.Globals(xs[n - 1]) &&
            (forall k :: 0 <= k < n ==> res.0.0[k] == QuestPart(Quests.Truncated(xs[k], hellfire))) &&
            res.1 == r.(ptr := r.ptr + Offset(Copies(Quests.QuestCodec(hellfire), n), n))
  {
    hide Quests.QuestCodec;
    var n := |xs|;
    LoadJoinedMatches(load, Copies(Quests.QuestCodec(hellfire), n), P, G, Quests.ReturnSlot, xs, r, n);
    RestoreQuests(hellfire, n, P, G, xs, n);
  }

  // ---------------------------------------------------------------------
  // The round trip of the game file

  /** The quest array has its giNumberQuests quests of twelve fields, and
      the globals slot holds its record of five. */
  ghost predicate QuestsShaped(st: Store, hellfire: bool)
  {
    0 < |Pool(st, GlobalsSlot)| && JoinShaped(Pool(st, 8), First(st, GlobalsSlot), TablesFor(hellfire).quests)
  }

  /** A store in shape whose every quest, with the globals after it, is a
      record SaveQuest can write. */
  ghost predicate QuestsSaved(st: Store, hellfire: bool)
  {
    QuestsShaped(st, hellfire) &&
    forall k :: 0 <= k < TablesFor(hellfire).quests ==> WellFormed(Quests.QuestMemory(), Rec(st, 8, k) + First(st, GlobalsSlot))
  }

  /** The records SaveGame writes for the quests: each quest followed by
      the globals. */
  lemma {:induction false} QuestsWritten(st: Store, hellfire: bool)
    requires QuestsSaved(st, hellfire)
    ensures var xs := SectionRecords(QuestSection(hellfire), st);
            |xs| == TablesFor(hellfire).quests && QuestRecords(xs, |xs|) &&
            forall k :: 0 <= k < |xs| ==> xs[k] == Rec(st, 8, k) + First(st, GlobalsSlot)
  {
    var n := TablesFor(hellfire).quests;
    var xs := SectionRecords(QuestSection(hellfire), st);
    var P, G := Pool(st, 8), First(st, GlobalsSlot);
    Quests.MemoryShape();
    forall k | 0 <= k < n
      ensures xs[k] == Rec(st, 8, k) + G
    {
      assert xs[k] == JoinedRecord(Quests.QuestCodec(hellfire), P, k, G, Quests.ReturnSlot);
    }
  }

  /** The quest section saved from st and loaded into D: every quest comes
      back (the base layout keeps _qmsg's low byte), and the globals come
      back as the last quest carried them, which is as st holds them. */
  lemma {:induction false} QuestSectionRestores(st: Store, D: Store, hellfire: bool)
    requires QuestsSaved(st, hellfire) && QuestsShaped(D, hellfire)
    ensures var D' := RestoreSection(QuestSection(hellfire), st, D);
            First(D', GlobalsSlot) == First(st, GlobalsSlot) &&
            forall k :: 0 <= k < TablesFor(hellfire).quests ==>
              Rec(D', 8, k) == QuestPart(Quests.Truncated(Rec(st, 8, k) + First(st, GlobalsSlot), hellfire))
  {
    var n := TablesFor(hellfire).quests;
    var xs := SectionRecords(QuestSection(hellfire), st);
    QuestsWritten(st, hellfire);
    RestoreQuests(hellfire, n, Pool(D, 8), First(D, GlobalsSlot), xs, n);
    var G := First(st, GlobalsSlot);
    assert Quests.Globals(xs[n - 1]) == G by {
      assert xs[n - 1] == Rec(st, 8, n - 1) + G;
    }
  }

  /** Slots 8 and GlobalsSlot are written by the quest section alone. */
  lemma {:induction false} QuestsAlone(secs: seq<Section>, cfg: Config)
    requires GameLayout(secs, cfg)
    ensures Untouched(secs, 8, 0, 8) && Untouched(secs, 8, 9, GameCount)
    ensures Untouched(secs, GlobalsSlot, 0, 8) && Untouched(secs, GlobalsSlot, 9, GameCount)
  {
  }

  /** After the game file's sections, the quests and the globals are as
      the quest section restores them. */
  lemma {:induction false} GameQuestsRestored(st: Store, D: Store, secs: seq<Section>, cfg: Config, hellfire: bool)
    requires GameLayout(secs, cfg) && secs[8] == QuestSection(hellfire)
    requires QuestsSaved(st, hellfire) && QuestsShaped(D, hellfire)
    ensures var R := RestoreUpTo(Restorer(st), secs, D, GameCount);
            First(R, GlobalsSlot) == First(st, GlobalsSlot) &&
            forall k :: 0 <= k < TablesFor(hellfire).quests ==>
              Rec(R, 8, k) == QuestPart(Quests.Truncated(Rec(st, 8, k) + First(st, GlobalsSlot), hellfire))
  {
    hide FullSection;
    QuestsAlone(secs, cfg);
    PoolKept(secs, st, D, 8, 0, 8);
    PoolKept(secs, st, D, GlobalsSlot, 0, 8);
    QuestSectionRestores(st, RestoreUpTo(Restorer(st), secs, D, 8), hellfire);
    PoolKept(secs, st, D, 8, 9, GameCount);
    PoolKept(secs, st, D, GlobalsSlot, 9, GameCount);
  }

  /** SaveGame then LoadGame: ReturnLvlX, ReturnLvlY, ReturnLvl, ReturnLvlT
      and DoomQuestState come back as they were saved, and every quest comes
      back, the base layout keeping _qmsg's low byte. */
  lemma {:induction false} QuestsReloaded(st: Store, D: Store, hellfire: bool, cfg: Config)
    requires QuestsSaved(st, hellfire) && QuestsShaped(D, hellfire)
    ensures var R := Reloaded(st, D, hellfire, cfg);
            First(R, GlobalsSlot) == First(st, GlobalsSlot) &&
            forall k :: 0 <= k < TablesFor(hellfire).quests ==>
              Rec(R, 8, k) == QuestPart(Quests.Truncated(Rec(st, 8, k) + First(st, GlobalsSlot), hellfire))
  {
    var secs := GameSections(cfg, hellfire, IsTown(st));
    GameSectionsLayout(cfg, hellfire, IsTown(st));
    assert secs[8] == QuestSection(hellfire);
    GameQuestsRestored(st, D, secs, cfg, hellfire);
  }
}

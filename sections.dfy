/** The game and level files as a sequence of sections (SaveGame/LoadGame
    and SaveLevel/LoadLevel in Source/loadsave.cpp).

    Every loop of those functions saves or loads records of one global: a
    fixed number of records in order (the quests, the portals, one table,
    one grid, one scalar), or as many as a count read earlier holds, either
    in order (LoadVision(&file, i)) or at the indices a table read earlier
    lists (LoadMonster(&file, monstactive[i])). The load side computes the
    count and the indices from what it has already read, so the file is
    read back correctly only if those agree with what the save side used;
    the round trip below is proved once for every list of sections under
    that condition. */
module Sections {
  import opened Wire
  import opened Cursor
  import opened Layout
  import opened Codec

  /** The globals a file touches: slot s holds one global as a list of
      records (a pool such as the monster array, a one-record table such
      as monstactive, a one-record grid in save order, a one-field scalar). */
  type Store = seq<seq<Record>>

  /** How a counted section chooses its records. */
  datatype Pick = InOrder | ByIds(table: nat)

  /** Run(s, cs): records 0 .. |cs| - 1 of slot s, record i with codec cs[i].
      Picked(s, c, n, p): as many records of slot s as the scalar slot n
      holds, all with codec c, chosen by p.
      Joined(s, cs, h, g): records 0 .. |cs| - 1 of slot s, of h fields
      each, every one saved and loaded together with the one record of
      slot g: each save call writes that record's current values after its
      own, and each load call sets it again, so the last call decides what
      slot g holds. */
  datatype Section =
    | Run(slot: nat, cs: Schema)
    | Picked(slot: nat, c: Codec, count: nat, pick: Pick)
    | Joined(slot: nat, cs: Schema, head: nat, globals: nat)

  function Pool(st: Store, s: nat): seq<Record>
  {
    if s < |st| then st[s] else []
  }

  /** Record k of slot s, or no record. */
  function Rec(st: Store, s: nat, k: nat): Record
  {
    var P := Pool(st, s); if k < |P| then P[k] else []
  }

  /** The first record of slot s: the one record of a scalar or a table. */
  function First(st: Store, s: nat): Record
  {
    Rec(st, s, 0)
  }

  /** Field f of the first record of slot s, as the int the source stores
      it in; -1 when there is no such field. */
  function Entry(st: Store, s: nat, f: nat): int
  {
    var x := First(st, s);
    if f < |x| then Signed32(NumOf(x[f])) else -1
  }

  /** The number of records: `for (i = 0; i < n; i++)` runs no time for a
      negative n. */
  function Times(sec: Section, st: Store): nat
  {
    match sec
    case Run(_, cs) => |cs|
    case Picked(_, _, n, _) => var v := Entry(st, n, 0); if v < 0 then 0 else v
    case Joined(_, cs, _, _) => |cs|
  }

  /** The index of each record in its slot. */
  function Picks(sec: Section, st: Store): (ks: seq<int>)
    ensures |ks| == Times(sec, st)
  {
    if sec.Picked? && sec.pick.ByIds? then Ids(st, sec.pick.table, Times(sec, st)) else Range(Times(sec, st))
  }

  /** The first n entries of the table in slot t. */
  function Ids(st: Store, t: nat, n: nat): (ks: seq<int>)
    ensures |ks| == n && forall i :: 0 <= i < n ==> ks[i] == Entry(st, t, i)
  {
    if n == 0 then [] else Ids(st, t, n - 1) + [Entry(st, t, n - 1)]
  }

  function Range(n: nat): (ks: seq<int>)
    ensures |ks| == n && forall i :: 0 <= i < n ==> ks[i] == i
  {
    if n == 0 then [] else Range(n - 1) + [n - 1]
  }

  /** The codec of each record. */
  function SectionSchema(sec: Section, st: Store): (cs: Schema)
    ensures |cs| == Times(sec, st)
  {
    match sec
    case Run(_, cs) => cs
    case Picked(_, c, _, _) => Copies(c, Times(sec, st))
    case Joined(_, cs, _, _) => cs
  }

  /** The codecs of a section are valid, whatever the count. */
  ghost predicate SectionValid(sec: Section)
  {
    match sec
    case Run(_, cs) => AllValid(cs)
    case Picked(_, c, _, _) => Valid(c)
    case Joined(_, cs, _, _) => AllValid(cs)
  }

  lemma {:induction false} SchemaValid(sec: Section, st: Store)
    requires SectionValid(sec)
    ensures AllValid(SectionSchema(sec, st))
  {
  }

  /** Picks determine the schema. */
  lemma {:induction false} SchemaOfPicks(sec: Section, st: Store, st': Store)
    requires Picks(sec, st) == Picks(sec, st')
    ensures SectionSchema(sec, st) == SectionSchema(sec, st')
  {
    assert Times(sec, st) == |Picks(sec, st)|;
  }

  /** A record whose every slot has the shape of its field: zeros, and
      zero bytes for an array. */
  function Blank(L: Layout): (x: Record)
    ensures WellFormed(L, x)
  {
    seq(|L|, i requires 0 <= i < |L| => if L[i].kind.Bytes? then Blob(seq(L[i].kind.n, _ => 0 as byte)) else Num(0))
  }

  /** The record a save call writes for index k. The source indexes its
      array without a check; an index outside the pool is given a blank
      record here. */
  function SavedRecord(c: Codec, P: seq<Record>, k: int): (x: Record)
    ensures |x| == |c.mem|
  {
    if 0 <= k < |P| && |P[k]| == |c.mem| then P[k] else Blank(c.mem)
  }

  /** The records saved for the first n indices of ks. */
  function SavedRecords(cs: Schema, P: seq<Record>, ks: seq<int>, n: nat): (xs: seq<Record>)
    requires |ks| == |cs| && n <= |cs|
    ensures |xs| == n && forall i :: 0 <= i < n ==> xs[i] == SavedRecord(cs[i], P, ks[i])
  {
    if n == 0 then [] else SavedRecords(cs, P, ks, n - 1) + [SavedRecord(cs[n - 1], P, ks[n - 1])]
  }

  function SectionRecords(sec: Section, st: Store): (xs: seq<Record>)
    ensures AllSized(SectionSchema(sec, st), xs)
  {
    var cs := SectionSchema(sec, st);
    if sec.Joined? then JoinedRecords(cs, Pool(st, sec.slot), First(st, sec.globals), sec.head, |cs|)
    else SavedRecords(cs, Pool(st, sec.slot), Picks(sec, st), |cs|)
  }

  /** Record k of P, of h fields, and the shared record G together have
      the codec's shape. */
  predicate Joins(c: Codec, P: seq<Record>, k: int, G: Record, h: nat)
  {
    0 <= k < |P| && |P[k]| == h && h + |G| == |c.mem|
  }

  /** The record a save call of a joined section writes for index k: the
      pool's record followed by the shared one; a blank record when they
      do not have the codec's shape. */
  function JoinedRecord(c: Codec, P: seq<Record>, k: int, G: Record, h: nat): (x: Record)
    ensures |x| == |c.mem|
    ensures Joins(c, P, k, G, h) ==> x[..h] == P[k] && x[h..] == G
  {
    if Joins(c, P, k, G, h) then P[k] + G else Blank(c.mem)
  }

  function JoinedRecords(cs: Schema, P: seq<Record>, G: Record, h: nat, n: nat): (xs: seq<Record>)
    requires n <= |cs|
    ensures |xs| == n && forall i :: 0 <= i < n ==> xs[i] == JoinedRecord(cs[i], P, i, G, h)
  {
    if n == 0 then [] else JoinedRecords(cs, P, G, h, n - 1) + [JoinedRecord(cs[n - 1], P, n - 1, G, h)]
  }

  /** The first h fields of a record loaded by a joined section, which go
      to the pool, and the rest, which go to the shared record. */
  function Lead(x: Record, h: nat): (y: Record)
    ensures h <= |x| ==> y == x[..h]
  {
    if h <= |x| then x[..h] else x
  }

  function Trail(x: Record, h: nat): (y: Record)
    ensures h <= |x| ==> y == x[h..]
  {
    if h <= |x| then x[h..] else []
  }

  /** Slot s of st replaced by P. */
  function Put(st: Store, s: nat, P: seq<Record>): (st': Store)
    ensures |st'| == |st|
    ensures s < |st| ==> Pool(st', s) == P
    ensures forall t :: t != s ==> Pool(st', t) == Pool(st, t)
  {
    if s < |st| then st[s := P] else st
  }

  /** The first record of slot g of st replaced by G. */
  function SetFirst(st: Store, g: nat, G: Record): (st': Store)
    ensures |st'| == |st|
    ensures 0 < |Pool(st, g)| ==> First(st', g) == G
    ensures |Pool(st', g)| == |Pool(st, g)| && forall k :: 0 < k ==> Rec(st', g, k) == Rec(st, g, k)
    ensures forall t :: t != g ==> Pool(st', t) == Pool(st, t)
  {
    if g < |st| && 0 < |st[g]| then st[g := st[g][0 := G]] else st
  }

  // ---------------------------------------------------------------------
  // Saving. The save side writes, section after section, records that the
  // store fixes before the first write; a section is therefore described by
  // what it writes, its Part.

  /** The codecs and the records a section writes. */
  datatype Part = Part(cs: Schema, xs: seq<Record>)

  function PartOf(sec: Section, st: Store): (p: Part)
    ensures AllSized(p.cs, p.xs)
  {
    Part(SectionSchema(sec, st), SectionRecords(sec, st))
  }

  /** ps lists the parts of the sections secs of the store st. The
      equation for j is used only where PartOf(secs[j], st) is mentioned. */
  ghost predicate PartsOf(ps: seq<Part>, secs: seq<Section>, st: Store)
  {
    |ps| == |secs| && forall j {:trigger PartOf(secs[j], st)} :: 0 <= j < |secs| ==> ps[j] == PartOf(secs[j], st)
  }

  function Parts(secs: seq<Section>, st: Store): (ps: seq<Part>)
    ensures PartsOf(ps, secs, st)
  {
    seq(|secs|, j requires 0 <= j < |secs| => PartOf(secs[j], st))
  }

  ghost function SavePart(save: SaveStep, p: Part, w: Writer): Writer
  {
    if |p.xs| == |p.cs| then SaveFirst(save, p.cs, p.xs, w, |p.cs|) else w
  }

  /** The first n parts saved one after another. */
  ghost function SaveParts(save: SaveStep, ps: seq<Part>, w: Writer, n: nat): Writer
    requires n <= |ps|
  {
    if n == 0 then w else SavePart(save, ps[n - 1], SaveParts(save, ps, w, n - 1))
  }

  function PartSize(p: Part): nat
  {
    SchemaSize(p.cs)
  }

  /** Where part n starts. */
  function PartsOffset(ps: seq<Part>, n: nat): nat
    requires n <= |ps|
  {
    if n == 0 then 0 else PartsOffset(ps, n - 1) + PartSize(ps[n - 1])
  }

  lemma {:induction false} PartsOffsetMono(ps: seq<Part>, i: nat, j: nat)
    requires i <= j <= |ps|
    ensures PartsOffset(ps, i) <= PartsOffset(ps, j)
    decreases j
  {
    if i < j {
      PartsOffsetMono(ps, i, j - 1);
    }
  }

  // ---------------------------------------------------------------------
  // Loading

  /** One load call into index k of the pool P. An index outside the pool
      (which the source would write past its array) reads into a scratch
      record that is then dropped. */
  ghost function LoadInto(load: LoadStep, c: Codec, P: seq<Record>, k: int, r: Reader): (res: (seq<Record>, Reader))
    ensures |res.0| == |P|
  {
    if 0 <= k < |P| && |P[k]| == |c.mem| then
      var (x, r') := load(LoadCall(c, P[k], r));
      (P[k := x], r')
    else (P, load(LoadCall(c, Blank(c.mem), r)).1)
  }

  /** The first n load calls of a section, record i into index ks[i] of
      the pool as the earlier calls left it. */
  ghost function LoadRecs(load: LoadStep, cs: Schema, P: seq<Record>, ks: seq<int>, r: Reader, n: nat): (res: (seq<Record>, Reader))
    requires |ks| == |cs| && n <= |cs|
    ensures |res.0| == |P|
  {
    if n == 0 then (P, r)
    else
      var (P1, r1) := LoadRecs(load, cs, P, ks, r, n - 1);
      LoadInto(load, cs[n - 1], P1, ks[n - 1], r1)
  }

  /** One load call of a joined section into index k of P, with the
      shared record G: the record loaded is split between the two. Records
      without the codec's shape read into a scratch record that is then
      dropped. */
  ghost function LoadJoinedInto(load: LoadStep, c: Codec, P: seq<Record>, G: Record, k: int, h: nat, r: Reader)
    : (res: ((seq<Record>, Record), Reader))
    ensures |res.0.0| == |P|
  {
    if Joins(c, P, k, G, h) then
      var (x, r') := load(LoadCall(c, P[k] + G, r));
      ((P[k := Lead(x, h)], Trail(x, h)), r')
    else ((P, G), load(LoadCall(c, Blank(c.mem), r)).1)
  }

  /** The first n load calls of a joined section, record i into index i. */
  ghost function LoadJoined(load: LoadStep, cs: Schema, P: seq<Record>, G: Record, h: nat, r: Reader, n: nat)
    : (res: ((seq<Record>, Record), Reader))
    requires n <= |cs|
    ensures |res.0.0| == |P|
  {
    if n == 0 then ((P, G), r)
    else
      var prev := LoadJoined(load, cs, P, G, h, r, n - 1);
      LoadJoinedInto(load, cs[n - 1], prev.0.0, prev.0.1, n - 1, h, prev.1)
  }

  /** A section loaded into the store, with the count and the indices
      taken from the store as it is when the section starts. */
  ghost function LoadSection(load: LoadStep, sec: Section, st: Store, r: Reader): (res: (Store, Reader))
    ensures |res.0| == |st|
  {
    var cs, ks := SectionSchema(sec, st), Picks(sec, st);
    if sec.Joined? then
      var ((P, G), r') := LoadJoined(load, cs, Pool(st, sec.slot), First(st, sec.globals), sec.head, r, |cs|);
      (SetFirst(Put(st, sec.slot, P), sec.globals, G), r')
    else
      var (P, r') := LoadRecs(load, cs, Pool(st, sec.slot), ks, r, |cs|);
      (Put(st, sec.slot, P), r')
  }

  /** The arguments of one section load: the section, the store as the
      earlier sections left it, and the reader. */
  datatype SectionCall = SectionCall(sec: Section, st: Store, r: Reader)

  type SectionLoad = SectionCall -> (Store, Reader)

  /** LoadSection with the record step fixed. */
  ghost function SectionLoader(load: LoadStep): SectionLoad
  {
    (call: SectionCall) => LoadSection(load, call.sec, call.st, call.r)
  }

  /** The first n sections loaded one after another, each by ls. */
  ghost function LoadUpTo(ls: SectionLoad, secs: seq<Section>, st: Store, r: Reader, n: nat): (Store, Reader)
    requires n <= |secs|
  {
    if n == 0 then (st, r)
    else
      var (st1, r1) := LoadUpTo(ls, secs, st, r, n - 1);
      ls(SectionCall(secs[n - 1], st1, r1))
  }

  /** Sections a .. n - 1 loaded one after another, from st and r. */
  ghost function LoadRange(ls: SectionLoad, secs: seq<Section>, st: Store, r: Reader, a: nat, n: nat): (Store, Reader)
    requires a <= n <= |secs|
    decreases n - a
  {
    if n == a then (st, r)
    else
      var (st1, r1) := LoadRange(ls, secs, st, r, a, n - 1);
      ls(SectionCall(secs[n - 1], st1, r1))
  }

  // ---------------------------------------------------------------------
  // What a round trip gives back

  /** Record x loaded into index k of P. */
  ghost function RestoreInto(c: Codec, P: seq<Record>, k: int, x: Record): (P': seq<Record>)
    ensures |P'| == |P|
  {
    if Valid(c) && 0 <= k < |P| && |P[k]| == |c.mem| && |x| == |c.mem| then P[k := Expected(c, x, P[k])] else P
  }

  ghost function RestoreRecs(cs: Schema, P: seq<Record>, ks: seq<int>, xs: seq<Record>, n: nat): (P': seq<Record>)
    requires |ks| == |cs| && |xs| == |cs| && n <= |cs|
    ensures |P'| == |P|
  {
    if n == 0 then P else RestoreInto(cs[n - 1], RestoreRecs(cs, P, ks, xs, n - 1), ks[n - 1], xs[n - 1])
  }

  /** Record x of a joined section loaded into index k of P and into G. */
  ghost function RestoreJoinedInto(c: Codec, P: seq<Record>, G: Record, k: int, h: nat, x: Record): (res: (seq<Record>, Record))
    ensures |res.0| == |P|
  {
    if Valid(c) && Joins(c, P, k, G, h) && |x| == |c.mem| then
      var y := Expected(c, x, P[k] + G);
      (P[k := Lead(y, h)], Trail(y, h))
    else (P, G)
  }

  ghost function RestoreJoined(cs: Schema, P: seq<Record>, G: Record, h: nat, xs: seq<Record>, n: nat): (res: (seq<Record>, Record))
    requires |xs| == |cs| && n <= |cs|
    ensures |res.0| == |P|
  {
    if n == 0 then (P, G)
    else
      var prev := RestoreJoined(cs, P, G, h, xs, n - 1);
      RestoreJoinedInto(cs[n - 1], prev.0, prev.1, n - 1, h, xs[n - 1])
  }

  /** The section of the store src, saved and loaded into the store D. */
  ghost function RestoreSection(sec: Section, src: Store, D: Store): (D': Store)
    ensures |D'| == |D|
  {
    var cs, ks := SectionSchema(sec, src), Picks(sec, src);
    if sec.Joined? then
      var (P, G) := RestoreJoined(cs, Pool(D, sec.slot), First(D, sec.globals), sec.head, SectionRecords(sec, src), |cs|);
      SetFirst(Put(D, sec.slot, P), sec.globals, G)
    else
      var P := RestoreRecs(cs, Pool(D, sec.slot), ks, SectionRecords(sec, src), |cs|);
      Put(D, sec.slot, P)
  }

  datatype RestoreCall = RestoreCall(sec: Section, st: Store)

  /** What restoring one section does to a store. */
  type SectionRestore = RestoreCall -> Store

  ghost function Restorer(src: Store): SectionRestore
  {
    (call: RestoreCall) => RestoreSection(call.sec, src, call.st)
  }

  ghost function RestoreUpTo(rs: SectionRestore, secs: seq<Section>, D: Store, n: nat): Store
    requires n <= |secs|
  {
    if n == 0 then D else rs(RestoreCall(secs[n - 1], RestoreUpTo(rs, secs, D, n - 1)))
  }

  /** The loading side finds, when each section starts, the count and the
      indices the saving side used. */
  ghost predicate Agrees(rs: SectionRestore, secs: seq<Section>, src: Store, D: Store, n: nat)
    requires n <= |secs|
  {
    forall j :: 0 <= j < n ==> AgreesAt(rs, secs, src, D, j)
  }

  ghost predicate AgreesAt(rs: SectionRestore, secs: seq<Section>, src: Store, D: Store, j: nat)
    requires j < |secs|
  {
    Picks(secs[j], RestoreUpTo(rs, secs, D, j)) == Picks(secs[j], src)
  }

  ghost predicate SectionsValid(secs: seq<Section>)
  {
    forall j :: 0 <= j < |secs| ==> SectionValid(secs[j])
  }

  /** Every part has valid codecs and records of their shape. */
  ghost predicate PartsWellFormed(ps: seq<Part>)
  {
    forall j :: 0 <= j < |ps| ==> AllValid(ps[j].cs) && AllWellFormed(ps[j].cs, ps[j].xs)
  }

  /** The bytes from at on hold the records of a part. */
  ghost predicate PartAt(p: Part, bs: seq<byte>, at: nat)
  {
    AllValid(p.cs) && AllSized(p.cs, p.xs) && at + PartSize(p) <= |bs| && RecordsAt(p.cs, p.xs, bs, at, |p.cs|)
  }

  /** The bytes from base on hold part j at its offset. */
  ghost predicate PartIn(ps: seq<Part>, bs: seq<byte>, base: nat, j: nat)
    requires j < |ps|
  {
    PartAt(ps[j], bs, base + PartsOffset(ps, j))
  }

  /** The bytes from base on hold the first n parts, each at its offset. */
  ghost predicate PartsAt(ps: seq<Part>, bs: seq<byte>, base: nat, n: nat)
    requires n <= |ps|
  {
    forall j :: 0 <= j < n ==> PartIn(ps, bs, base, j)
  }

  /** w' is w after a write of k bytes that kept the bytes before it. */
  ghost predicate Wrote(w: Writer, w': Writer, k: nat)
  {
    WriterOk(w') && |w'.buf| == |w.buf| && w'.cap == w.cap && w'.live == w.live &&
    w'.ptr == w.ptr + k && w'.ptr <= |w'.buf| && w'.buf[..w.ptr] == w.buf[..w.ptr]
  }

  lemma {:induction false} WroteTrans(w: Writer, w1: Writer, w2: Writer, k1: nat, k2: nat)
    requires Wrote(w, w1, k1) && Wrote(w1, w2, k2)
    ensures Wrote(w, w2, k1 + k2)
  {
    PrefixSlices(w2.buf, w1.buf, w.ptr, w1.ptr);
  }

  /** What a part's bytes say stays when the bytes up to its end are kept. */
  lemma {:induction false} PartAtKept(p: Part, b1: seq<byte>, b: seq<byte>, at: nat, q: nat)
    requires PartAt(p, b1, at) && at + PartSize(p) <= q <= |b| && q <= |b1| && b[..q] == b1[..q]
    ensures PartAt(p, b, at)
  {
    RecordsAtKept(p.cs, p.xs, b1, b, at, |p.cs|, q);
  }

  /** Keeping the bytes up to the end of the first n parts keeps them. */
  lemma {:induction false} PartsAtKept(ps: seq<Part>, b1: seq<byte>, b: seq<byte>, base: nat, n: nat, q: nat)
    requires n <= |ps| && PartsAt(ps, b1, base, n)
    requires base + PartsOffset(ps, n) <= q <= |b| && q <= |b1| && b[..q] == b1[..q]
    ensures PartsAt(ps, b, base, n)
  {
    forall j | 0 <= j < n
      ensures PartIn(ps, b, base, j)
    {
      assert PartIn(ps, b1, base, j);
      PartsOffsetMono(ps, j + 1, n);
      PartAtKept(ps[j], b1, b, base + PartsOffset(ps, j), q);
    }
  }

  lemma {:induction false} PartsAtSnoc(ps: seq<Part>, b: seq<byte>, base: nat, n: nat)
    requires 0 < n <= |ps| && PartsAt(ps, b, base, n - 1)
    requires PartAt(ps[n - 1], b, base + PartsOffset(ps, n - 1))
    ensures PartsAt(ps, b, base, n)
  {
  }

  /** Saving a part writes its records at the position and keeps the bytes
      before it. */
  lemma {:induction false} SavePartMatches(save: SaveStep, p: Part, w: Writer)
    requires SavesRecords(save) && AllValid(p.cs) && AllWellFormed(p.cs, p.xs)
    requires WriterOk(w) && CanWrite(w, PartSize(p))
    ensures Wrote(w, SavePart(save, p, w), PartSize(p))
    ensures PartAt(p, SavePart(save, p, w).buf, w.ptr)
  {
    assert AllSized(p.cs, p.xs) by {
      forall i | 0 <= i < |p.xs|
        ensures |p.xs[i]| == |p.cs[i].mem|
      {
        assert WellFormed(p.cs[i].mem, p.xs[i]);
      }
    }
    SaveFirstMatches(save, p.cs, p.xs, w, |p.cs|);
  }

  /** One more part written after the first n - 1. */
  lemma {:induction false} SaveStepMatches(ps: seq<Part>, w: Writer, w1: Writer, w': Writer, n: nat)
    requires 0 < n <= |ps|
    requires Wrote(w, w1, PartsOffset(ps, n - 1)) && PartsAt(ps, w1.buf, w.ptr, n - 1)
    requires Wrote(w1, w', PartSize(ps[n - 1])) && PartAt(ps[n - 1], w'.buf, w1.ptr)
    ensures Wrote(w, w', PartsOffset(ps, n))
    ensures PartsAt(ps, w'.buf, w.ptr, n)
  {
    WroteTrans(w, w1, w', PartsOffset(ps, n - 1), PartSize(ps[n - 1]));
    PartsAtKept(ps, w1.buf, w'.buf, w.ptr, n - 1, w1.ptr);
    PartsAtSnoc(ps, w'.buf, w.ptr, n);
  }

  /** Saving parts keeps the writer's allocation, length and liveness. */
  lemma {:induction false} SavePartsKeeps(ps: seq<Part>, w: Writer, n: nat)
    requires n <= |ps| && WriterOk(w)
    ensures var w' := SaveParts(SaveOne, ps, w, n);
            WriterOk(w') && |w'.buf| == |w.buf| && w'.cap == w.cap && w'.live == w.live
  {
    if n > 0 {
      SavePartsKeeps(ps, w, n - 1);
      var p := ps[n - 1];
      if |p.xs| == |p.cs| {
        SaveFirstKeeps(p.cs, p.xs, SaveParts(SaveOne, ps, w, n - 1), |p.cs|);
      }
    }
  }

  /** Saving the first n parts writes each at its offset and keeps the
      bytes before the start. */
  lemma {:induction false} SavePartsMatches(save: SaveStep, ps: seq<Part>, w: Writer, n: nat)
    requires SavesRecords(save) && n <= |ps| && PartsWellFormed(ps)
    requires WriterOk(w) && CanWrite(w, PartsOffset(ps, n))
    ensures Wrote(w, SaveParts(save, ps, w, n), PartsOffset(ps, n))
    ensures PartsAt(ps, SaveParts(save, ps, w, n).buf, w.ptr, n)
  {
    if n > 0 {
      PartsOffsetMono(ps, n - 1, n);
      SavePartsMatches(save, ps, w, n - 1);
      var w1 := SaveParts(save, ps, w, n - 1);
      SavePartMatches(save, ps[n - 1], w1);
      SaveStepMatches(ps, w, w1, SavePart(save, ps[n - 1], w1), n);
    }
  }

  /** Load calls over bytes that hold the saved records give what
      RestoreRecs predicts, whatever the indices. */
  /** One record loaded into index k of P, from bytes that hold it. */
  lemma {:induction false} LoadIntoMatches(load: LoadStep, c: Codec, P: seq<Record>, k: int, x: Record, r: Reader, q: nat)
    requires LoadsRecords(load) && Valid(c) && |x| == |c.mem|
    requires r.present && q == r.ptr + RecordSize(c) <= |r.data|
    requires Matches(c.load, c.toWire(Arg(x)), r.data[r.ptr..q])
    ensures LoadInto(load, c, P, k, r) == (RestoreInto(c, P, k, x), r.(ptr := q))
  {
    if 0 <= k < |P| && |P[k]| == |c.mem| {
      LoadAt(load, c, x, P[k], r, q);
    } else {
      LoadAt(load, c, x, Blank(c.mem), r, q);
    }
  }

  lemma {:induction false} LoadRecsMatches(load: LoadStep, cs: Schema, P: seq<Record>, ks: seq<int>, xs: seq<Record>, r: Reader, n: nat)
    requires LoadsRecords(load) && AllValid(cs) && AllSized(cs, xs) && |ks| == |cs| && n <= |cs|
    requires r.present && r.ptr <= |r.data| && RecordsAt(cs, xs, r.data, r.ptr, n)
    ensures r.ptr + Offset(cs, n) <= |r.data|
    ensures LoadRecs(load, cs, P, ks, r, n) == (RestoreRecs(cs, P, ks, xs, n), r.(ptr := r.ptr + Offset(cs, n)))
  {
    if n > 0 {
      RecordsAtInit(cs, xs, r.data, r.ptr, n);
      LoadRecsMatches(load, cs, P, ks, xs, r, n - 1);
      var P1 := RestoreRecs(cs, P, ks, xs, n - 1);
      var r1 := r.(ptr := r.ptr + Offset(cs, n - 1));
      var c, k, x := cs[n - 1], ks[n - 1], xs[n - 1];
      assert Valid(c) && |x| == |c.mem|;
      LoadIntoMatches(load, c, P1, k, x, r1, r.ptr + Offset(cs, n));
    }
  }

  /** One record of a joined section loaded from bytes that hold it. */
  lemma {:induction false} LoadJoinedIntoMatches(load: LoadStep, c: Codec, P: seq<Record>, G: Record, k: int, h: nat,
                                                 x: Record, r: Reader, q: nat)
    requires LoadsRecords(load) && Valid(c) && |x| == |c.mem|
    requires r.present && q == r.ptr + RecordSize(c) <= |r.data|
    requires Matches(c.load, c.toWire(Arg(x)), r.data[r.ptr..q])
    ensures LoadJoinedInto(load, c, P, G, k, h, r) == (RestoreJoinedInto(c, P, G, k, h, x), r.(ptr := q))
  {
    if Joins(c, P, k, G, h) {
      LoadAt(load, c, x, P[k] + G, r, q);
    } else {
      LoadAt(load, c, x, Blank(c.mem), r, q);
    }
  }

  /** The reader r moved past the first i records. */
  function Ahead(r: Reader, cs: Schema, i: nat): Reader
    requires i <= |cs|
  {
    r.(ptr := r.ptr + Offset(cs, i))
  }

  /** Each of the first n load calls of a joined section, from where the
      records before it end, gives what restoring its record predicts. */
  ghost predicate JoinedSteps(load: LoadStep, cs: Schema, h: nat, xs: seq<Record>, r: Reader, n: nat)
    requires |xs| == |cs| && n <= |cs|
  {
    forall i, P: seq<Record>, G: Record {:trigger LoadJoinedInto(load, cs[i], P, G, i, h, Ahead(r, cs, i))} ::
      0 <= i < n ==>
      LoadJoinedInto(load, cs[i], P, G, i, h, Ahead(r, cs, i)) == (RestoreJoinedInto(cs[i], P, G, i, h, xs[i]), Ahead(r, cs, i + 1))
  }

  lemma {:induction false} JoinedStepsHold(load: LoadStep, cs: Schema, h: nat, xs: seq<Record>, r: Reader, n: nat)
    requires LoadsRecords(load) && AllValid(cs) && AllSized(cs, xs) && n <= |cs|
    requires r.present && RecordsAt(cs, xs, r.data, r.ptr, n)
    ensures JoinedSteps(load, cs, h, xs, r, n)
  {
    forall i, P: seq<Record>, G: Record | 0 <= i < n
      ensures LoadJoinedInto(load, cs[i], P, G, i, h, Ahead(r, cs, i)) == (RestoreJoinedInto(cs[i], P, G, i, h, xs[i]), Ahead(r, cs, i + 1))
    {
      assert RecordAt(cs, xs, r.data, r.ptr, i);
      assert Valid(cs[i]) && |xs[i]| == |cs[i].mem|;
      LoadJoinedIntoMatches(load, cs[i], P, G, i, h, xs[i], Ahead(r, cs, i), r.ptr + Offset(cs, i + 1));
    }
  }

  /** The first n load calls of a joined section, each as restoring its
      record predicts. */
  lemma {:induction false} LoadJoinedRuns(load: LoadStep, cs: Schema, P: seq<Record>, G: Record, h: nat, xs: seq<Record>, r: Reader, n: nat)
    requires |xs| == |cs| && n <= |cs| && JoinedSteps(load, cs, h, xs, r, n)
    ensures LoadJoined(load, cs, P, G, h, r, n) == (RestoreJoined(cs, P, G, h, xs, n), Ahead(r, cs, n))
  {
    if n > 0 {
      LoadJoinedRuns(load, cs, P, G, h, xs, r, n - 1);
      var prev := RestoreJoined(cs, P, G, h, xs, n - 1);
      assert LoadJoinedInto(load, cs[n - 1], prev.0, prev.1, n - 1, h, Ahead(r, cs, n - 1)) ==
             (RestoreJoinedInto(cs[n - 1], prev.0, prev.1, n - 1, h, xs[n - 1]), Ahead(r, cs, n));
    }
  }

  lemma {:induction false} LoadJoinedMatches(load: LoadStep, cs: Schema, P: seq<Record>, G: Record, h: nat, xs: seq<Record>, r: Reader, n: nat)
    requires LoadsRecords(load) && AllValid(cs) && AllSized(cs, xs) && n <= |cs|
    requires r.present && r.ptr <= |r.data| && RecordsAt(cs, xs, r.data, r.ptr, n)
    ensures r.ptr + Offset(cs, n) <= |r.data|
    ensures LoadJoined(load, cs, P, G, h, r, n) == (RestoreJoined(cs, P, G, h, xs, n), r.(ptr := r.ptr + Offset(cs, n)))
  {
    if n > 0 {
      assert RecordAt(cs, xs, r.data, r.ptr, n - 1);
    }
    JoinedStepsHold(load, cs, h, xs, r, n);
    LoadJoinedRuns(load, cs, P, G, h, xs, r, n);
  }

  /** A section loaded from bytes that hold it, into a store where the
      count and the indices are those it was saved with, gives what
      RestoreSection predicts and ends past the section. */
  lemma {:induction false} LoadSectionMatches(load: LoadStep, sec: Section, src: Store, D: Store, r: Reader)
    requires LoadsRecords(load) && Picks(sec, D) == Picks(sec, src)
    requires r.present && PartAt(PartOf(sec, src), r.data, r.ptr)
    ensures LoadSection(load, sec, D, r) == (RestoreSection(sec, src, D), r.(ptr := r.ptr + PartSize(PartOf(sec, src))))
  {
    SchemaOfPicks(sec, D, src);
    var cs := SectionSchema(sec, src);
    if sec.Joined? {
      LoadJoinedMatches(load, cs, Pool(D, sec.slot), First(D, sec.globals), sec.head, SectionRecords(sec, src), r, |cs|);
    } else {
      LoadRecsMatches(load, cs, Pool(D, sec.slot), Picks(sec, src), SectionRecords(sec, src), r, |cs|);
    }
  }

  /** What LoadSectionMatches proves of a section load. */
  ghost predicate LoadsSections(ls: SectionLoad)
  {
    forall sec: Section, src: Store, D: Store, r: Reader {:trigger ls(SectionCall(sec, D, r)), PartOf(sec, src)} ::
      Picks(sec, D) == Picks(sec, src) && r.present && PartAt(PartOf(sec, src), r.data, r.ptr) ==>
      ls(SectionCall(sec, D, r)) == (RestoreSection(sec, src, D), r.(ptr := r.ptr + PartSize(PartOf(sec, src))))
  }

  lemma {:induction false} SectionLoaderLoads(load: LoadStep)
    requires LoadsRecords(load)
    ensures LoadsSections(SectionLoader(load))
  {
    forall sec: Section, src: Store, D: Store, r: Reader |
        Picks(sec, D) == Picks(sec, src) && r.present && PartAt(PartOf(sec, src), r.data, r.ptr)
      ensures SectionLoader(load)(SectionCall(sec, D, r)) == (RestoreSection(sec, src, D), r.(ptr := r.ptr + PartSize(PartOf(sec, src))))
    {
      LoadSectionMatches(load, sec, src, D, r);
    }
  }

  /** LoadsSections for the sections secs of src, each with its part. */
  ghost predicate LoadsParts(ls: SectionLoad, rs: SectionRestore, secs: seq<Section>, ps: seq<Part>, src: Store)
  {
    |ps| == |secs| &&
    forall j, D: Store, r: Reader {:trigger ls(SectionCall(secs[j], D, r))} ::
      0 <= j < |secs| && Picks(secs[j], D) == Picks(secs[j], src) && r.present && PartAt(ps[j], r.data, r.ptr) ==>
      ls(SectionCall(secs[j], D, r)) == (rs(RestoreCall(secs[j], D)), r.(ptr := r.ptr + PartSize(ps[j])))
  }

  lemma {:induction false} SectionsLoadParts(ls: SectionLoad, secs: seq<Section>, ps: seq<Part>, src: Store)
    requires LoadsSections(ls) && PartsOf(ps, secs, src)
    ensures LoadsParts(ls, Restorer(src), secs, ps, src)
  {
    forall j, D: Store, r: Reader |
        0 <= j < |secs| && Picks(secs[j], D) == Picks(secs[j], src) && r.present && PartAt(ps[j], r.data, r.ptr)
      ensures ls(SectionCall(secs[j], D, r)) == (Restorer(src)(RestoreCall(secs[j], D)), r.(ptr := r.ptr + PartSize(ps[j])))
    {
      assert ps[j] == PartOf(secs[j], src);
    }
  }

  /** Loading the first n sections from bytes that hold their parts, into
      any store on which the counts and indices agree, gives what
      RestoreUpTo predicts and ends past the n parts. */
  lemma {:induction false} LoadUpToMatches(ls: SectionLoad, rs: SectionRestore, secs: seq<Section>, ps: seq<Part>, src: Store, D: Store, r: Reader, n: nat)
    requires LoadsParts(ls, rs, secs, ps, src) && n <= |secs| && Agrees(rs, secs, src, D, n)
    requires r.present && PartsAt(ps, r.data, r.ptr, n)
    ensures LoadUpTo(ls, secs, D, r, n) == (RestoreUpTo(rs, secs, D, n), r.(ptr := r.ptr + PartsOffset(ps, n)))
  {
    if n > 0 {
      LoadUpToMatches(ls, rs, secs, ps, src, D, r, n - 1);
      assert AgreesAt(rs, secs, src, D, n - 1) && PartIn(ps, r.data, r.ptr, n - 1);
    }
  }

  /** The round trip of a file: the parts of the first m sections saved
      from src, and the first n of the sections loaded back into D, give
      the store RestoreUpTo predicts, and the read ends where part n ends. */
  lemma {:induction false} FileRoundTrip(save: SaveStep, ls: SectionLoad, rs: SectionRestore, secs: seq<Section>, ps: seq<Part>, src: Store, D: Store, w: Writer, m: nat, n: nat)
    requires SavesRecords(save) && LoadsParts(ls, rs, secs, ps, src)
    requires n <= m <= |secs| && PartsWellFormed(ps) && Agrees(rs, secs, src, D, n)
    requires WriterOk(w) && CanWrite(w, PartsOffset(ps, m))
    ensures var w' := SaveParts(save, ps, w, m);
            Wrote(w, w', PartsOffset(ps, m)) &&
            LoadUpTo(ls, secs, D, Reader(true, w'.buf, w.ptr), n) ==
            (RestoreUpTo(rs, secs, D, n), Reader(true, w'.buf, w.ptr + PartsOffset(ps, n)))
  {
    SavePartsMatches(save, ps, w, m);
    var w' := SaveParts(save, ps, w, m);
    assert PartsAt(ps, w'.buf, w.ptr, n);
    LoadUpToMatches(ls, rs, secs, ps, src, D, Reader(true, w'.buf, w.ptr), n);
  }

  // ---------------------------------------------------------------------
  // Splitting a load

  /** Loading n sections is loading the first a of them and then the rest. */
  lemma {:induction false} LoadUpToSplit(ls: SectionLoad, secs: seq<Section>, st: Store, r: Reader, a: nat, n: nat)
    requires a <= n <= |secs|
    ensures LoadUpTo(ls, secs, st, r, n) ==
            var (st1, r1) := LoadUpTo(ls, secs, st, r, a); LoadRange(ls, secs, st1, r1, a, n)
    decreases n
  {
    if n > a {
      LoadUpToSplit(ls, secs, st, r, a, n - 1);
    }
  }

  /** Loading sections keeps the number of slots. */
  lemma {:induction false} LoadRangeLength(load: LoadStep, secs: seq<Section>, st: Store, r: Reader, a: nat, n: nat)
    requires a <= n <= |secs|
    ensures |LoadRange(SectionLoader(load), secs, st, r, a, n).0| == |st|
    decreases n - a
  {
    if a < n {
      LoadRangeLength(load, secs, st, r, a, n - 1);
    }
  }

  /** Loading sections a .. n - 1 is loading a .. m - 1 and then the rest. */
  lemma {:induction false} LoadRangeSplit(ls: SectionLoad, secs: seq<Section>, st: Store, r: Reader, a: nat, m: nat, n: nat)
    requires a <= m <= n <= |secs|
    ensures LoadRange(ls, secs, st, r, a, n) ==
            var (st1, r1) := LoadRange(ls, secs, st, r, a, m); LoadRange(ls, secs, st1, r1, m, n)
    decreases n
  {
    if n > m {
      LoadRangeSplit(ls, secs, st, r, a, m, n - 1);
    }
  }

  /** The first n sections alone decide what loading them does. */
  lemma {:induction false} LoadUpToSame(ls: SectionLoad, secs: seq<Section>, secs': seq<Section>, st: Store, r: Reader, n: nat)
    requires n <= |secs| && n <= |secs'| && forall i :: 0 <= i < n ==> secs[i] == secs'[i]
    ensures LoadUpTo(ls, secs, st, r, n) == LoadUpTo(ls, secs', st, r, n)
  {
    if n > 0 {
      LoadUpToSame(ls, secs, secs', st, r, n - 1);
    }
  }

  // ---------------------------------------------------------------------
  // Slots a round trip gives back

  /** The slots a section's load calls write: its own, and the shared
      record's of a joined section. */
  predicate Writes(sec: Section, s: nat)
  {
    sec.slot == s || (sec.Joined? && sec.globals == s)
  }

  /** Restoring a section changes the slots it writes only. */
  lemma {:induction false} RestoreOther(sec: Section, src: Store, D: Store, s: nat)
    requires !Writes(sec, s)
    ensures Pool(RestoreSection(sec, src, D), s) == Pool(D, s)
  {
  }

  /** No section among secs[a .. b) writes slot s. */
  ghost predicate Untouched(secs: seq<Section>, s: nat, a: nat, b: nat)
    requires a <= b <= |secs|
  {
    forall i :: a <= i < b ==> !Writes(secs[i], s)
  }

  /** A restore step that changes the slots its section writes only. */
  ghost predicate KeepsOthers(rs: SectionRestore)
  {
    forall sec: Section, st: Store, s: nat {:trigger Pool(rs(RestoreCall(sec, st)), s)} ::
      !Writes(sec, s) ==> Pool(rs(RestoreCall(sec, st)), s) == Pool(st, s)
  }

  lemma {:induction false} RestorerKeepsOthers(src: Store)
    ensures KeepsOthers(Restorer(src))
  {
    forall sec: Section, st: Store, s: nat | !Writes(sec, s)
      ensures Pool(Restorer(src)(RestoreCall(sec, st)), s) == Pool(st, s)
    {
      RestoreOther(sec, src, st, s);
    }
  }

  lemma {:induction false} RestoreUntouched(rs: SectionRestore, secs: seq<Section>, D: Store, s: nat, a: nat, b: nat)
    requires KeepsOthers(rs) && a <= b <= |secs| && Untouched(secs, s, a, b)
    ensures Pool(RestoreUpTo(rs, secs, D, b), s) == Pool(RestoreUpTo(rs, secs, D, a), s)
    decreases b
  {
    if a < b {
      RestoreUntouched(rs, secs, D, s, a, b - 1);
    }
  }

  /** Restoring the sections a .. b - 1 of src keeps every slot none of
      them writes. */
  lemma {:induction false} PoolKept(secs: seq<Section>, src: Store, D: Store, s: nat, a: nat, b: nat)
    requires a <= b <= |secs| && Untouched(secs, s, a, b)
    ensures Pool(RestoreUpTo(Restorer(src), secs, D, b), s) == Pool(RestoreUpTo(Restorer(src), secs, D, a), s)
  {
    RestorerKeepsOthers(src);
    RestoreUntouched(Restorer(src), secs, D, s, a, b);
  }

  /** Loading a section changes the slots it writes only. */
  lemma {:induction false} LoadOther(load: LoadStep, sec: Section, st: Store, r: Reader, s: nat)
    requires !Writes(sec, s)
    ensures Pool(LoadSection(load, sec, st, r).0, s) == Pool(st, s)
  {
  }

  /** Loading the sections a .. n - 1 keeps every slot none of them
      writes. */
  lemma {:induction false} LoadUntouched(load: LoadStep, secs: seq<Section>, st: Store, r: Reader, s: nat, a: nat, n: nat)
    requires a <= n <= |secs| && Untouched(secs, s, a, n)
    ensures Pool(LoadRange(SectionLoader(load), secs, st, r, a, n).0, s) == Pool(st, s)
    decreases n - a
  {
    if a < n {
      var prev := LoadRange(SectionLoader(load), secs, st, r, a, n - 1);
      LoadUntouched(load, secs, st, r, s, a, n - 1);
      LoadOther(load, secs[n - 1], prev.0, prev.1, s);
    }
  }

  /** A scalar or a table: the one record of slot s, moved as it is. */
  function Table(s: nat, L: Layout): (sec: Section)
    ensures sec.slot == s && sec.Run?
  {
    Run(s, [Plain(L)])
  }

  /** Slot s of st has a record at index k of the codec's length. */
  predicate Sized(st: Store, s: nat, k: nat, c: Codec)
  {
    s < |st| && k < |st[s]| && |st[s][k]| == |c.mem|
  }

  /** Restoring records 0 .. n - 1 of a run, each at its own index, leaves
      at index k what restoring record k alone leaves there. */
  lemma {:induction false} RestoreRecsAt(cs: Schema, P: seq<Record>, ks: seq<int>, xs: seq<Record>, n: nat, k: nat)
    requires |ks| == |cs| && |xs| == |cs| && n <= |cs| && k < |P| && k < |cs|
    requires forall i :: 0 <= i < |ks| ==> ks[i] == i
    ensures RestoreRecs(cs, P, ks, xs, n)[k] == if k < n then RestoreInto(cs[k], P, k, xs[k])[k] else P[k]
    decreases n
  {
    if n > 0 {
      RestoreRecsAt(cs, P, ks, xs, n - 1, k);
      if k == n - 1 {
        assert ks[k] == k;
      }
    }
  }

  /** A run section gives record k back as record k's codec restores it. */
  lemma {:induction false} RunRestores(s: nat, cs: Schema, src: Store, D: Store, k: nat)
    requires k < |cs| && Valid(cs[k]) && Sized(src, s, k, cs[k]) && Sized(D, s, k, cs[k])
    ensures Rec(RestoreSection(Run(s, cs), src, D), s, k) == Expected(cs[k], Rec(src, s, k), Rec(D, s, k))
  {
    var sec := Run(s, cs);
    var xs := SectionRecords(sec, src);
    assert xs[k] == Rec(src, s, k);
    RestoreRecsAt(cs, Pool(D, s), Picks(sec, src), xs, |cs|, k);
  }

  /** The run at position k, the first writer of slot s, leaves record
      idx there as its codec restores it. */
  lemma {:induction false} RecordSet(secs: seq<Section>, src: Store, D: Store, s: nat, cs: Schema, k: nat, idx: nat)
    requires k < |secs| && secs[k] == Run(s, cs) && Untouched(secs, s, 0, k)
    requires idx < |cs| && Valid(cs[idx]) && Sized(src, s, idx, cs[idx]) && Sized(D, s, idx, cs[idx])
    ensures Rec(RestoreUpTo(Restorer(src), secs, D, k + 1), s, idx) == Expected(cs[idx], Rec(src, s, idx), Rec(D, s, idx))
  {
    PoolKept(secs, src, D, s, 0, k);
    RunRestores(s, cs, src, RestoreUpTo(Restorer(src), secs, D, k), idx);
  }

  /** Record idx of slot s stays as it is through sections that do not
      write the slot. */
  lemma {:induction false} RecStays(secs: seq<Section>, src: Store, D: Store, s: nat, idx: nat, a: nat, b: nat, y: Record)
    requires a <= b <= |secs| && Untouched(secs, s, a, b)
    requires Rec(RestoreUpTo(Restorer(src), secs, D, a), s, idx) == y
    ensures Rec(RestoreUpTo(Restorer(src), secs, D, b), s, idx) == y
  {
    PoolKept(secs, src, D, s, a, b);
  }

  /** The run at position k is the only writer of slot s before j: after
      the first j sections, record idx of slot s is as its codec restores
      it. */
  lemma {:induction false} RecordKept(secs: seq<Section>, src: Store, D: Store, s: nat, cs: Schema, k: nat, idx: nat, j: nat)
    requires k < j <= |secs| && secs[k] == Run(s, cs)
    requires Untouched(secs, s, 0, k) && Untouched(secs, s, k + 1, j)
    requires idx < |cs| && Valid(cs[idx]) && Sized(src, s, idx, cs[idx]) && Sized(D, s, idx, cs[idx])
    ensures Rec(RestoreUpTo(Restorer(src), secs, D, j), s, idx) == Expected(cs[idx], Rec(src, s, idx), Rec(D, s, idx))
  {
    var y := Expected(cs[idx], Rec(src, s, idx), Rec(D, s, idx));
    RecordSet(secs, src, D, s, cs, k, idx);
    RecStays(secs, src, D, s, idx, k + 1, j, y);
  }

  /** A table that is the only writer of its slot before j gives the saved
      record back exactly, when its layout skips nothing. */
  lemma {:induction false} KeyKept(secs: seq<Section>, src: Store, D: Store, s: nat, L: Layout, k: nat, j: nat)
    requires k < j <= |secs| && secs[k] == Table(s, L) && NoSkip(L)
    requires Untouched(secs, s, 0, k) && Untouched(secs, s, k + 1, j)
    requires Sized(src, s, 0, Plain(L)) && Sized(D, s, 0, Plain(L))
    ensures First(RestoreUpTo(Restorer(src), secs, D, j), s) == First(src, s)
  {
    PlainValid(L);
    RecordKept(secs, src, D, s, [Plain(L)], k, 0, j);
    PlainExpected(L, Rec(src, s, 0), Rec(D, s, 0));
    MergeNoSkip(L, Rec(src, s, 0), Rec(D, s, 0));
  }

  /** The records a section picks depend on the first records of its
      count's and its table's slots only. */
  lemma {:induction false} PicksAgree(sec: Section, st: Store, st': Store)
    requires sec.Picked? ==> First(st, sec.count) == First(st', sec.count)
    requires sec.Picked? && sec.pick.ByIds? ==> First(st, sec.pick.table) == First(st', sec.pick.table)
    ensures Picks(sec, st) == Picks(sec, st')
  {
    if sec.Picked? && sec.pick.ByIds? {
      var n := Times(sec, st);
      assert Ids(st, sec.pick.table, n) == Ids(st', sec.pick.table, n);
    }
  }

  // ---------------------------------------------------------------------
  // The records a store holds

  /** Every record of the slot that has the codec's shape is well formed. */
  ghost predicate PoolWellFormed(c: Codec, P: seq<Record>)
  {
    forall k :: 0 <= k < |P| && |P[k]| == |c.mem| ==> WellFormed(c.mem, P[k])
  }

  /** The records a section saves from st are well formed. */
  ghost predicate SectionWellFormed(sec: Section, st: Store)
  {
    match sec
    case Run(s, cs) => forall i :: 0 <= i < |cs| && i < |Pool(st, s)| && |Pool(st, s)[i]| == |cs[i].mem| ==> WellFormed(cs[i].mem, Pool(st, s)[i])
    case Picked(s, c, _, _) => PoolWellFormed(c, Pool(st, s))
    case Joined(s, cs, h, g) =>
      forall i :: 0 <= i < |cs| && Joins(cs[i], Pool(st, s), i, First(st, g), h) ==> WellFormed(cs[i].mem, Pool(st, s)[i] + First(st, g))
  }

  lemma {:induction false} BlankWellFormed(L: Layout)
    ensures WellFormed(L, Blank(L))
  {
  }

  lemma {:induction false} SavedWellFormed(sec: Section, st: Store)
    requires SectionValid(sec) && SectionWellFormed(sec, st)
    ensures AllValid(PartOf(sec, st).cs) && AllWellFormed(PartOf(sec, st).cs, PartOf(sec, st).xs)
  {
    var p := PartOf(sec, st);
    SchemaValid(sec, st);
    forall i | 0 <= i < |p.cs|
      ensures WellFormed(p.cs[i].mem, p.xs[i])
    {
      var k := Picks(sec, st)[i];
      BlankWellFormed(p.cs[i].mem);
      if sec.Joined? {
        assert p.xs[i] == JoinedRecord(p.cs[i], Pool(st, sec.slot), i, First(st, sec.globals), sec.head);
      } else {
        assert p.xs[i] == SavedRecord(p.cs[i], Pool(st, sec.slot), k);
        if sec.Run? {
          assert k == i;
        }
      }
    }
  }

  /** The parts of well-formed sections are well formed. */
  lemma {:induction false} PartsOfWellFormed(secs: seq<Section>, st: Store)
    requires forall j :: 0 <= j < |secs| ==> SectionValid(secs[j]) && SectionWellFormed(secs[j], st)
    ensures PartsWellFormed(Parts(secs, st))
  {
    var ps := Parts(secs, st);
    forall j | 0 <= j < |ps|
      ensures AllValid(ps[j].cs) && AllWellFormed(ps[j].cs, ps[j].xs)
    {
      assert ps[j] == PartOf(secs[j], st);
      SavedWellFormed(secs[j], st);
    }
  }

  // ---------------------------------------------------------------------
  // The cursor methods

  /** One loop of a Load function: `for (i = 0; i < n; i++)
      LoadX(&file, ks[i])`, with the count and the indices taken from the
      store as it is when the loop starts. */
  method ReadSection(file: LoadHelper, sec: Section, st: Store) returns (st': Store)
    requires SectionValid(sec)
    modifies file
    ensures (st', file.State()) == LoadSection(LoadOne, sec, st, old(file.State()))
  {
    var cs, ks := SectionSchema(sec, st), Picks(sec, st);
    SchemaValid(sec, st);
    var P := Pool(st, sec.slot);
    ghost var P0, r := P, file.State();
    if sec.Joined? {
      var G := First(st, sec.globals);
      ghost var G0 := G;
      var i := 0;
      while i < |cs|
        invariant 0 <= i <= |cs|
        invariant ((P, G), file.State()) == LoadJoined(LoadOne, cs, P0, G0, sec.head, r, i)
      {
        P, G := ReadJoinedInto(file, cs[i], P, G, i, sec.head);
        i := i + 1;
      }
      st' := SetFirst(Put(st, sec.slot, P), sec.globals, G);
    } else {
      var i := 0;
      while i < |cs|
        invariant 0 <= i <= |cs|
        invariant (P, file.State()) == LoadRecs(LoadOne, cs, P0, ks, r, i)
      {
        P := ReadInto(file, cs[i], P, ks[i]);
        i := i + 1;
      }
      st' := Put(st, sec.slot, P);
    }
  }

  /** One load call of a joined section: the record read goes to index k
      of the pool and to the shared record. */
  method ReadJoinedInto(file: LoadHelper, c: Codec, P: seq<Record>, G: Record, k: int, h: nat) returns (P': seq<Record>, G': Record)
    requires Valid(c)
    modifies file
    ensures ((P', G'), file.State()) == LoadJoinedInto(LoadOne, c, P, G, k, h, old(file.State()))
  {
    if Joins(c, P, k, G, h) {
      var x := LoadRecord(file, c, P[k] + G);
      P', G' := P[k := Lead(x, h)], Trail(x, h);
    } else {
      var scratch := LoadRecord(file, c, Blank(c.mem));
      P', G' := P, G;
    }
  }

  /** One call LoadX(&file, k): into record k of the pool, or into a
      scratch record for an index outside it. */
  method ReadInto(file: LoadHelper, c: Codec, P: seq<Record>, k: int) returns (P': seq<Record>)
    requires Valid(c)
    modifies file
    ensures (P', file.State()) == LoadInto(LoadOne, c, P, k, old(file.State()))
  {
    if 0 <= k < |P| && |P[k]| == |c.mem| {
      var x := LoadRecord(file, c, P[k]);
      P' := P[k := x];
    } else {
      var scratch := LoadRecord(file, c, Blank(c.mem));
      P' := P;
    }
  }

  /** The matching loop of a Save function: `for (i = 0; i < n; i++)
      SaveX(&file, ks[i])`. */
  method WriteSection(file: SaveHelper, sec: Section, st: Store)
    requires SectionValid(sec) && file.Valid()
    modifies file, file.buffer
    ensures file.Valid() && file.buffer == old(file.buffer)
    ensures file.State() == SavePart(SaveOne, PartOf(sec, st), old(file.State()))
  {
    var cs, ks, P := SectionSchema(sec, st), Picks(sec, st), Pool(st, sec.slot);
    SchemaValid(sec, st);
    ghost var xs, w := SectionRecords(sec, st), file.State();
    var i := 0;
    while i < |cs|
      invariant 0 <= i <= |cs|
      invariant file.Valid() && file.buffer == old(file.buffer)
      invariant file.State() == SaveFirst(SaveOne, cs, xs, w, i)
    {
      ghost var before := file.State();
      var x := if sec.Joined? then JoinedRecord(cs[i], P, i, First(st, sec.globals), sec.head) else SavedRecord(cs[i], P, ks[i]);
      SaveRecord(file, cs[i], x);
      SaveFirstStep(cs, xs, w, i, before, file.State());
      i := i + 1;
    }
  }

  /** Sections a .. n - 1 loaded one after another. */
  method ReadSections(file: LoadHelper, secs: seq<Section>, st: Store, a: nat, n: nat) returns (st': Store)
    requires a <= n <= |secs| && SectionsValid(secs)
    modifies file
    ensures (st', file.State()) == LoadRange(SectionLoader(LoadOne), secs, st, old(file.State()), a, n)
  {
    ghost var r := file.State();
    st' := st;
    var j := a;
    while j < n
      invariant a <= j <= n
      invariant (st', file.State()) == LoadRange(SectionLoader(LoadOne), secs, st, r, a, j)
    {
      st' := ReadSection(file, secs[j], st');
      j := j + 1;
    }
  }

  /** Every section's records saved one section after another. */
  method WriteSections(file: SaveHelper, secs: seq<Section>, st: Store)
    requires SectionsValid(secs) && file.Valid()
    modifies file, file.buffer
    ensures file.Valid() && file.buffer == old(file.buffer)
    ensures file.State() == SaveParts(SaveOne, Parts(secs, st), old(file.State()), |secs|)
  {
    ghost var ps, w := Parts(secs, st), file.State();
    var j := 0;
    while j < |secs|
      invariant 0 <= j <= |secs|
      invariant file.Valid() && file.buffer == old(file.buffer)
      invariant file.State() == SaveParts(SaveOne, ps, w, j)
    {
      assert ps[j] == PartOf(secs[j], st);
      WriteSection(file, secs[j], st);
      j := j + 1;
    }
  }
}

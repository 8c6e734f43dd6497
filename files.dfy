/** What the game and the level file have in common once their sections
    are laid out: a counted section reads its count and its indices from
    one-record tables that an earlier section alone writes, and then the
    file loads back record by record what was saved (sections.dfy), while
    a slot that one section alone fills comes back as that section's codec
    restores it. SaveGame and SaveLevel end alike, with the sections
    written after what the SaveHelper holds and the buffer flushed. */
module Files {
  import opened Wire
  import opened Cursor
  import opened Layout
  import opened Codec
  import opened Sections

  /** A one-record table that skips nothing. */
  ghost predicate IsKey(sec: Section)
  {
    sec.Run? && |sec.cs| == 1 && sec == Table(sec.slot, sec.cs[0].mem) && NoSkip(sec.cs[0].mem)
  }

  /** Section k is the only one of secs that fills slot s. */
  ghost predicate Alone(secs: seq<Section>, s: nat, k: nat)
  {
    k < |secs| && secs[k].slot == s && Untouched(secs, s, 0, k) && Untouched(secs, s, k + 1, |secs|)
  }

  /** Slot s is a key that section at(s) alone writes, before section i. */
  ghost predicate KeyIn(secs: seq<Section>, at: nat -> nat, s: nat, i: nat)
  {
    at(s) < i <= |secs| && Alone(secs, s, at(s)) && IsKey(secs[at(s)])
  }

  /** Every counted section takes its count and its indices from keys
      written before it; at tells which section writes a key. */
  ghost predicate Keyed(secs: seq<Section>, at: nat -> nat)
  {
    forall i :: 0 <= i < |secs| && secs[i].Picked? ==>
      KeyIn(secs, at, secs[i].count, i) && (secs[i].pick.ByIds? ==> KeyIn(secs, at, secs[i].pick.table, i))
  }

  /** No two sections write the same slot: the one that writes slot s is
      section idx(s). */
  ghost predicate Indexed(secs: seq<Section>, idx: nat -> nat)
  {
    forall i :: 0 <= i < |secs| ==> idx(secs[i].slot) == i && (secs[i].Joined? ==> idx(secs[i].globals) == i)
  }

  lemma {:induction false} IndexedAlone(secs: seq<Section>, idx: nat -> nat, k: nat)
    requires Indexed(secs, idx) && k < |secs|
    ensures Alone(secs, secs[k].slot, k)
  {
  }

  /** A slot that idx sends past the first n sections is one none of
      them writes. */
  lemma {:induction false} IndexedUntouched(secs: seq<Section>, idx: nat -> nat, s: nat, n: nat)
    requires Indexed(secs, idx) && n <= |secs| && n <= idx(s)
    ensures Untouched(secs, s, 0, n)
  {
  }

  /** The records of a fixed-length section have their codecs' shape. */
  ghost predicate RunSized(st: Store, sec: Section)
  {
    sec.Run? ==> forall k :: 0 <= k < |sec.cs| ==> Sized(st, sec.slot, k, sec.cs[k])
  }

  /** Every fixed-size global of st has its records in shape: the arrays
      of the source have their declared lengths. */
  ghost predicate ShapedFor(st: Store, secs: seq<Section>)
  {
    forall i :: 0 <= i < |secs| ==> RunSized(st, secs[i])
  }

  /** A key written before j comes back exactly. */
  lemma {:induction false} KeyRestored(st: Store, D: Store, secs: seq<Section>, at: nat -> nat, s: nat, j: nat)
    requires KeyIn(secs, at, s, j) && ShapedFor(st, secs) && ShapedFor(D, secs)
    ensures First(RestoreUpTo(Restorer(st), secs, D, j), s) == First(st, s)
  {
    var k := at(s);
    var sec := secs[k];
    assert RunSized(st, sec) && RunSized(D, sec);
    assert Untouched(secs, s, k + 1, j);
    KeyKept(secs, st, D, s, sec.cs[0].mem, k, j);
  }

  /** Loading finds, when each counted section starts, the count and the
      indices it was saved with. */
  lemma {:induction false} AllAgree(st: Store, D: Store, secs: seq<Section>, at: nat -> nat)
    requires Keyed(secs, at) && ShapedFor(st, secs) && ShapedFor(D, secs)
    ensures Agrees(Restorer(st), secs, st, D, |secs|)
  {
    forall j | 0 <= j < |secs|
      ensures AgreesAt(Restorer(st), secs, st, D, j)
    {
      SectionAgrees(st, D, secs, at, j);
    }
  }

  lemma {:induction false} SectionAgrees(st: Store, D: Store, secs: seq<Section>, at: nat -> nat, j: nat)
    requires Keyed(secs, at) && j < |secs| && ShapedFor(st, secs) && ShapedFor(D, secs)
    ensures AgreesAt(Restorer(st), secs, st, D, j)
  {
    var sec := secs[j];
    var D1 := RestoreUpTo(Restorer(st), secs, D, j);
    if sec.Picked? {
      KeyRestored(st, D, secs, at, sec.count, j);
      if sec.pick.ByIds? {
        KeyRestored(st, D, secs, at, sec.pick.table, j);
      }
      PicksAgree(sec, D1, st);
    }
  }

  /** A keyed section list loads back what was saved: the loader reads
      each part as RestoreSection predicts, and every counted section
      finds its count and indices. */
  lemma {:induction false} LoadsBack(st: Store, D: Store, secs: seq<Section>, at: nat -> nat)
    requires SectionsValid(secs) && Keyed(secs, at) && ShapedFor(st, secs) && ShapedFor(D, secs)
    ensures LoadsParts(SectionLoader(LoadOne), Restorer(st), secs, Parts(secs, st), st)
    ensures Agrees(Restorer(st), secs, st, D, |secs|)
  {
    LoadOneLoads();
    SectionLoaderLoads(LoadOne);
    SectionsLoadParts(SectionLoader(LoadOne), secs, Parts(secs, st), st);
    AllAgree(st, D, secs, at);
  }

  /** A fixed-length section that alone fills its slot leaves there, once
      it is loaded, record by record what its codec restores. */
  lemma {:induction false} RunKept(st: Store, D: Store, secs: seq<Section>, i: nat, idx: nat, j: nat)
    requires SectionsValid(secs) && ShapedFor(st, secs) && ShapedFor(D, secs)
    requires i < j <= |secs| && Alone(secs, secs[i].slot, i) && secs[i].Run? && idx < |secs[i].cs|
    ensures var s, c := secs[i].slot, secs[i].cs[idx];
            Valid(c) && Sized(st, s, idx, c) && Sized(D, s, idx, c) &&
            Rec(RestoreUpTo(Restorer(st), secs, D, j), s, idx) == Expected(c, Rec(st, s, idx), Rec(D, s, idx))
  {
    var sec := secs[i];
    assert RunSized(st, sec) && RunSized(D, sec) && SectionValid(sec);
    assert Untouched(secs, sec.slot, i + 1, j);
    RecordKept(secs, st, D, sec.slot, sec.cs, i, idx, j);
  }

  /** Blob name of an archive as a LoadHelper opens it. */
  function BlobReader(files: map<string, seq<byte>>, name: string): (r: Reader)
    ensures r.ptr == 0 && r.present == (name in files) && (name in files ==> r.data == files[name])
  {
    Reader(name in files, if name in files then files[name] else [], 0)
  }

  /** The bytes a SaveHelper flushes: its buffer up to the position. */
  function Contents(w: Writer): (bs: seq<byte>)
    ensures w.ptr <= |w.buf| ==> |bs| == w.ptr && bs == w.buf[..w.ptr]
  {
    if w.ptr <= |w.buf| then w.buf[..w.ptr] else w.buf
  }

  /** Parts saved after what a writer holds: the bytes before it stay,
      the position moves by the parts' size, and the parts lie from the
      old position on. */
  lemma {:induction false} PartsBlob(ps: seq<Part>, w1: Writer)
    requires PartsWellFormed(ps) && WriterOk(w1) && w1.live && w1.ptr + PartsOffset(ps, |ps|) <= w1.cap
    ensures var w := SaveParts(SaveOne, ps, w1, |ps|);
            w.ptr == w1.ptr + PartsOffset(ps, |ps|) <= |w.buf| &&
            w.buf[..w1.ptr] == w1.buf[..w1.ptr] &&
            PartsAt(ps, Contents(w), w1.ptr, |ps|)
  {
    SaveOneSaves();
    SavePartsMatches(SaveOne, ps, w1, |ps|);
    var w := SaveParts(SaveOne, ps, w1, |ps|);
    PartsAtKept(ps, w.buf, w.buf[..w.ptr], w1.ptr, |ps|, w.ptr);
  }

  /** The sections written after what the file holds, then the flush. */
  method WriteAndFlush(file: SaveHelper, archive: Archive, secs: seq<Section>, st: Store)
    requires SectionsValid(secs) && file.Valid() && file.live
    requires SaveParts(SaveOne, Parts(secs, st), file.State(), |secs|).ptr <= file.buffer.Length
    modifies file, file.buffer, archive
    ensures var w := SaveParts(SaveOne, Parts(secs, st), old(file.State()), |secs|);
            archive.files == old(archive.files)[file.name := Contents(w)]
  {
    ghost var w := file.State();
    WriteSections(file, secs, st);
    SavePartsKeeps(Parts(secs, st), w, |secs|);
    file.Flush(archive);
  }
}

/** One entity's pair of Load and Save functions (LoadItemData/SaveItem,
    LoadMonster/SaveMonster, ... in Source/loadsave.cpp), described by the
    layout each side walks and by what happens to the in-memory record
    before writing and after reading.

    Save writes toWire(x) with the Save layout. Load reads with the Load
    layout into view(dest) (the part of the destination the reads land in)
    and then applies fromWire, which does the source's post-processing
    (remapping an index, clamping, filling in a default). The round trip is
    proved here once for every such pair, for one record and for the
    source's `for (i = 0; i < n; i++)` runs of records. */
module Codec {
  import opened Wire
  import opened Cursor
  import opened Layout

  datatype Codec = Codec(
    mem: Layout,
    save: Layout,
    load: Layout,
    toWire: Arg -> Record,
    view: Arg -> Record,
    fromWire: (Arg, Arg) -> Record)

  datatype Arg = Arg(r: Record)

  /** The Load layout reads what the Save layout writes (skipping some of
      it), toWire turns a well-formed in-memory record into a well-formed
      Save record, and view picks one slot per Load call. */
  ghost predicate Valid(c: Codec)
  {
    Coarsens(c.load, c.save) &&
    (forall x {:trigger c.toWire(Arg(x))} :: |x| == |c.mem| ==> |c.toWire(Arg(x))| == |c.save|) &&
    (forall x {:trigger c.toWire(Arg(x))} :: WellFormed(c.mem, x) ==> WellFormed(c.save, c.toWire(Arg(x)))) &&
    (forall d {:trigger c.view(Arg(d))} :: |d| == |c.mem| ==> |c.view(Arg(d))| == |c.load|)
  }

  /** The number of bytes one record occupies. */
  function RecordSize(c: Codec): nat
  {
    Size(c.save)
  }

  function Save(c: Codec, x: Record, w: Writer): (w': Writer)
    requires Valid(c) && |x| == |c.mem| && WriterOk(w)
    ensures WriterOk(w') && |w'.buf| == |w.buf| && w'.cap == w.cap && w'.live == w.live
  {
    EncodeFields(c.save, c.toWire(Arg(x)), w)
  }

  function Load(c: Codec, dest: Record, r: Reader): (res: (Record, Reader))
    requires Valid(c) && |dest| == |c.mem|
    ensures res.1.present == r.present && res.1.data == r.data && res.1.ptr >= r.ptr
  {
    var (rec, r') := DecodeFields(c.load, c.view(Arg(dest)), r);
    (c.fromWire(Arg(rec), Arg(dest)), r')
  }

  /** What loading a record saved from x into the destination dest yields:
      x's values where the Load layout reads, dest's where it skips, then
      the post-processing. */
  function Expected(c: Codec, x: Record, dest: Record): Record
    requires Valid(c) && |x| == |c.mem| && |dest| == |c.mem|
  {
    c.fromWire(Arg(Merge(c.load, c.toWire(Arg(x)), c.view(Arg(dest)))), Arg(dest))
  }

  /** A record written without being dropped occupies exactly RecordSize
      bytes at the position, which the Load layout reads back as it; the
      bytes before the position stay as they were. */
  lemma {:induction false} SaveMatches(c: Codec, x: Record, w: Writer)
    requires Valid(c) && WellFormed(c.mem, x) && WriterOk(w) && CanWrite(w, RecordSize(c))
    ensures var w' := Save(c, x, w);
            w'.ptr == w.ptr + RecordSize(c) && w'.buf[..w.ptr] == w.buf[..w.ptr] &&
            Size(c.load) == RecordSize(c) &&
            Matches(c.load, c.toWire(Arg(x)), w'.buf[w.ptr..w'.ptr])
  {
    var rec := c.toWire(Arg(x));
    assert WellFormed(c.save, rec);
    assert Save(c, x, w) == EncodeFields(c.save, rec, w);
    EncodeMatchesCoarse(c.save, c.load, rec, w);
    EncodeMatches(c.save, rec, w);
  }

  /** Reading bytes that hold a saved record yields the expected record and
      advances by exactly RecordSize. */
  lemma {:induction false} LoadMatches(c: Codec, x: Record, dest: Record, r: Reader)
    requires Valid(c) && |x| == |c.mem| && |dest| == |c.mem|
    requires r.present && r.ptr + RecordSize(c) <= |r.data|
    requires Matches(c.load, c.toWire(Arg(x)), r.data[r.ptr..r.ptr + RecordSize(c)])
    ensures Load(c, dest, r) == (Expected(c, x, dest), r.(ptr := r.ptr + RecordSize(c)))
  {
    CoarsensSize(c.load, c.save);
    DecodeMatches(c.load, c.toWire(Arg(x)), c.view(Arg(dest)), r);
  }

  /** Save then Load, same layouts: the expected record, and the read ends
      where the write ended. */
  lemma {:induction false} CodecRoundTrip(c: Codec, x: Record, dest: Record, w: Writer)
    requires Valid(c) && WellFormed(c.mem, x) && |dest| == |c.mem|
    requires WriterOk(w) && CanWrite(w, RecordSize(c))
    ensures var w' := Save(c, x, w);
            Load(c, dest, Reader(true, w'.buf, w.ptr)) ==
            (Expected(c, x, dest), Reader(true, w'.buf, w.ptr + RecordSize(c)))
  {
    var w' := Save(c, x, w);
    SaveMatches(c, x, w);
    LoadMatches(c, x, dest, Reader(true, w'.buf, w.ptr));
  }

  /** Loading, from the position where x was saved into w, the bytes the
      save left gives y and ends n bytes further on. */
  ghost predicate RoundTrips(c: Codec, x: Record, dest: Record, w: Writer, y: Record, n: nat)
  {
    Valid(c) && |x| == |c.mem| && |dest| == |c.mem| && WriterOk(w) &&
    var w' := Save(c, x, w);
    Load(c, dest, Reader(true, w'.buf, w.ptr)) == (y, Reader(true, w'.buf, w.ptr + n))
  }

  /** The round trip, stated for a known expected record and size. */
  lemma {:induction false} CodecRoundTripTo(c: Codec, x: Record, dest: Record, w: Writer, y: Record, n: nat)
    requires Valid(c) && WellFormed(c.mem, x) && |dest| == |c.mem| && Expected(c, x, dest) == y
    requires RecordSize(c) == n && WriterOk(w) && CanWrite(w, n)
    ensures RoundTrips(c, x, dest, w, y, n)
  {
    CodecRoundTrip(c, x, dest, w);
  }

  /** A record whose Load and Save layouts are the same and that needs no
      fix-up: the entities whose Load function reads back, call for call,
      what the Save function wrote (missiles, objects, lights, portals). */
  function Plain(L: Layout): (c: Codec)
    ensures c.mem == L && c.save == L && c.load == L
  {
    Codec(L, L, L, (x: Arg) => x.r, (d: Arg) => d.r, (rec: Arg, d: Arg) => rec.r)
  }

  lemma {:induction false} PlainValid(L: Layout)
    ensures Valid(Plain(L))
  {
  }

  /** Loading a saved plain record gives its values back, and the
      destination's at the Skip slots. */
  lemma {:induction false} PlainExpected(L: Layout, x: Record, dest: Record)
    requires |x| == |L| && |dest| == |L|
    ensures Valid(Plain(L))
    ensures Expected(Plain(L), x, dest) == Merge(L, x, dest)
  {
    PlainValid(L);
  }

  /** Two buffers that agree below q agree on every part below q. */
  lemma {:induction false} PrefixSlices(a: seq<byte>, b: seq<byte>, p: nat, q: nat)
    requires p <= q <= |a| && q <= |b| && a[..q] == b[..q]
    ensures a[p..q] == b[p..q] && a[..p] == b[..p]
  {
    assert a[p..q] == a[..q][p..];
    assert b[p..q] == b[..q][p..];
    assert a[..p] == a[..q][..p];
    assert b[..p] == b[..q][..p];
  }

  /** A region cut at an inner point. */
  lemma {:induction false} Split(a: seq<byte>, p: nat, q: nat, e: nat)
    requires p <= q <= e <= |a|
    ensures a[p..e][..q - p] == a[p..q] && a[p..e][q - p..] == a[q..e]
  {
  }

  // ---------------------------------------------------------------------
  // Runs of records. A schema gives the codec of each record in turn:
  // SaveItems/LoadItems and the fixed-count loops use one codec n times
  // (Copies), SavePlayer and the game and level files chain different ones.
  // The run functions count records rather than slice the schema.

  type Schema = seq<Codec>

  function Copies(c: Codec, n: nat): (cs: Schema)
    ensures |cs| == n && forall i :: 0 <= i < n ==> cs[i] == c
  {
    if n == 0 then [] else Copies(c, n - 1) + [c]
  }

  ghost predicate AllValid(cs: Schema)
  {
    forall i :: 0 <= i < |cs| ==> Valid(cs[i])
  }

  predicate AllSized(cs: Schema, xs: seq<Record>)
  {
    |xs| == |cs| && forall i :: 0 <= i < |xs| ==> |xs[i]| == |cs[i].mem|
  }

  ghost predicate AllWellFormed(cs: Schema, xs: seq<Record>)
  {
    |xs| == |cs| && forall i :: 0 <= i < |xs| ==> WellFormed(cs[i].mem, xs[i])
  }

  /** Save and Load made total, so that a run of records can be written
      for any record step. */
  ghost function SaveOne(call: SaveCall): Writer
  {
    var SaveCall(c, x, w) := call;
    if Valid(c) && |x| == |c.mem| && WriterOk(w) then Save(c, x, w) else w
  }

  ghost function LoadOne(call: LoadCall): (Record, Reader)
  {
    var LoadCall(c, dest, r) := call;
    if Valid(c) && |dest| == |c.mem| then Load(c, dest, r) else (dest, r)
  }

  /** The arguments of one save call and of one load call. */
  datatype SaveCall = SaveCall(c: Codec, x: Record, w: Writer)
  datatype LoadCall = LoadCall(c: Codec, dest: Record, r: Reader)

  type SaveStep = SaveCall -> Writer
  type LoadStep = LoadCall -> (Record, Reader)

  /** The first n records saved one after another. */
  ghost function SaveFirst(save: SaveStep, cs: Schema, xs: seq<Record>, w: Writer, n: nat): Writer
    requires |xs| == |cs| && n <= |cs|
  {
    if n == 0 then w else save(SaveCall(cs[n - 1], xs[n - 1], SaveFirst(save, cs, xs, w, n - 1)))
  }

  /** The first n records loaded one after another into their destinations. */
  ghost function LoadFirst(load: LoadStep, cs: Schema, dests: seq<Record>, r: Reader, n: nat): (res: (seq<Record>, Reader))
    requires |dests| == |cs| && n <= |cs|
    ensures |res.0| == n
  {
    if n == 0 then ([], r)
    else
      var front := LoadFirst(load, cs, dests, r, n - 1);
      var last := load(LoadCall(cs[n - 1], dests[n - 1], front.1));
      (front.0 + [last.0], last.1)
  }

  ghost function SaveAll(cs: Schema, xs: seq<Record>, w: Writer): Writer
    requires |xs| == |cs|
  {
    SaveFirst(SaveOne, cs, xs, w, |cs|)
  }

  ghost function LoadAll(cs: Schema, dests: seq<Record>, r: Reader): (res: (seq<Record>, Reader))
    requires |dests| == |cs|
  {
    LoadFirst(LoadOne, cs, dests, r, |cs|)
  }

  /** What loading the first n saved records of xs into dests yields. */
  ghost function ExpectedFirst(cs: Schema, xs: seq<Record>, dests: seq<Record>, n: nat): (ys: seq<Record>)
    requires AllValid(cs) && AllSized(cs, xs) && AllSized(cs, dests) && n <= |cs|
    ensures |ys| == n
  {
    if n == 0 then []
    else ExpectedFirst(cs, xs, dests, n - 1) + [Expected(cs[n - 1], xs[n - 1], dests[n - 1])]
  }

  ghost function ExpectedAll(cs: Schema, xs: seq<Record>, dests: seq<Record>): (ys: seq<Record>)
    requires AllValid(cs) && AllSized(cs, xs) && AllSized(cs, dests)
  {
    ExpectedFirst(cs, xs, dests, |cs|)
  }

  /** Record i of ExpectedFirst is record i of xs loaded into dests[i]. */
  lemma {:induction false} ExpectedFirstAt(cs: Schema, xs: seq<Record>, dests: seq<Record>, n: nat, i: nat)
    requires AllValid(cs) && AllSized(cs, xs) && AllSized(cs, dests) && i < n <= |cs|
    ensures ExpectedFirst(cs, xs, dests, n)[i] == Expected(cs[i], xs[i], dests[i])
  {
    if i < n - 1 {
      ExpectedFirstAt(cs, xs, dests, n - 1, i);
    }
  }

  /** Record by record, what loading the saved xs into dests yields. */
  lemma {:induction false} ExpectedAllAt(cs: Schema, xs: seq<Record>, dests: seq<Record>)
    requires AllValid(cs) && AllSized(cs, xs) && AllSized(cs, dests)
    ensures |ExpectedAll(cs, xs, dests)| == |cs|
    ensures forall i :: 0 <= i < |cs| ==> ExpectedAll(cs, xs, dests)[i] == Expected(cs[i], xs[i], dests[i])
  {
    forall i | 0 <= i < |cs|
      ensures ExpectedAll(cs, xs, dests)[i] == Expected(cs[i], xs[i], dests[i])
    {
      ExpectedFirstAt(cs, xs, dests, |cs|, i);
    }
  }

  /** Where record n starts: the bytes the records before it occupy. */
  function Offset(cs: Schema, n: nat): nat
    requires n <= |cs|
  {
    if n == 0 then 0 else Offset(cs, n - 1) + RecordSize(cs[n - 1])
  }

  function SchemaSize(cs: Schema): nat
  {
    Offset(cs, |cs|)
  }

  lemma {:induction false} OffsetMono(cs: Schema, i: nat, j: nat)
    requires i <= j <= |cs|
    ensures Offset(cs, i) <= Offset(cs, j)
    decreases j
  {
    if i < j {
      OffsetMono(cs, i, j - 1);
    }
  }

  /** The buffer holds, from base on, record i of xs in the RecordSize
      bytes its schema position gives it. */
  ghost predicate RecordAt(cs: Schema, xs: seq<Record>, bs: seq<byte>, base: nat, i: nat)
    requires AllValid(cs) && AllSized(cs, xs) && i < |cs|
  {
    base + Offset(cs, i + 1) <= |bs| &&
    Matches(cs[i].load, cs[i].toWire(Arg(xs[i])), bs[base + Offset(cs, i)..base + Offset(cs, i + 1)])
  }

  /** The buffer holds, from base on, the first n records of xs. */
  ghost predicate RecordsAt(cs: Schema, xs: seq<Record>, bs: seq<byte>, base: nat, n: nat)
    requires AllValid(cs) && AllSized(cs, xs) && n <= |cs|
  {
    forall i :: 0 <= i < n ==> RecordAt(cs, xs, bs, base, i)
  }

  /** What SaveMatches proves of Save: the record's bytes land at the
      position, which advances by RecordSize; nothing before it changes. */
  ghost predicate SavedAt(c: Codec, x: Record, w: Writer, w': Writer)
    requires Valid(c) && |x| == |c.mem|
  {
    WriterOk(w') && |w'.buf| == |w.buf| && w'.cap == w.cap && w'.live == w.live &&
    w'.ptr == w.ptr + RecordSize(c) && w'.ptr <= w'.cap && w'.buf[..w.ptr] == w.buf[..w.ptr] &&
    Matches(c.load, c.toWire(Arg(x)), w'.buf[w.ptr..w'.ptr])
  }

  ghost predicate SavesRecords(save: SaveStep)
  {
    forall c: Codec, x: Record, w: Writer {:trigger save(SaveCall(c, x, w))} ::
      Valid(c) && WellFormed(c.mem, x) && WriterOk(w) && CanWrite(w, RecordSize(c)) ==>
      SavedAt(c, x, w, save(SaveCall(c, x, w)))
  }

  /** What LoadMatches proves of Load. */
  ghost predicate LoadsRecords(load: LoadStep)
  {
    forall c: Codec, x: Record, dest: Record, r: Reader {:trigger load(LoadCall(c, dest, r)), Expected(c, x, dest)} ::
      Valid(c) && |x| == |c.mem| && |dest| == |c.mem| &&
      r.present && r.ptr + RecordSize(c) <= |r.data| &&
      Matches(c.load, c.toWire(Arg(x)), r.data[r.ptr..r.ptr + RecordSize(c)]) ==>
      load(LoadCall(c, dest, r)) == (Expected(c, x, dest), r.(ptr := r.ptr + RecordSize(c)))
  }

  lemma {:induction false} SaveOneSaves()
    ensures SavesRecords(SaveOne)
  {
    forall c: Codec, x: Record, w: Writer | Valid(c) && WellFormed(c.mem, x) && WriterOk(w) && CanWrite(w, RecordSize(c))
      ensures SavedAt(c, x, w, SaveOne(SaveCall(c, x, w)))
    {
      SaveMatches(c, x, w);
    }
  }

  lemma {:induction false} LoadOneLoads()
    ensures LoadsRecords(LoadOne)
  {
    forall c: Codec, x: Record, dest: Record, r: Reader | Valid(c) && |x| == |c.mem| && |dest| == |c.mem| &&
        r.present && r.ptr + RecordSize(c) <= |r.data| &&
        Matches(c.load, c.toWire(Arg(x)), r.data[r.ptr..r.ptr + RecordSize(c)])
      ensures LoadOne(LoadCall(c, dest, r)) == (Expected(c, x, dest), r.(ptr := r.ptr + RecordSize(c)))
    {
      LoadMatches(c, x, dest, r);
    }
  }

  /** Bytes that hold the first n - 1 records, kept below where record
      n - 1 starts, followed by that record's bytes, hold the first n. */
  lemma {:induction false} RecordsAtSnoc(cs: Schema, xs: seq<Record>, b1: seq<byte>, b: seq<byte>, base: nat, n: nat, p: nat, q: nat)
    requires AllValid(cs) && AllSized(cs, xs) && 0 < n <= |cs|
    requires p == base + Offset(cs, n - 1) && q == base + Offset(cs, n)
    requires RecordsAt(cs, xs, b1, base, n - 1)
    requires p <= |b1| && p <= q <= |b| && b[..p] == b1[..p]
    requires Matches(cs[n - 1].load, cs[n - 1].toWire(Arg(xs[n - 1])), b[p..q])
    ensures RecordsAt(cs, xs, b, base, n)
  {
    RecordsAtKept(cs, xs, b1, b, base, n - 1, p);
    RecordAtLast(cs, xs, b, base, n, p, q);
  }

  /** The first m records stay where they are when the bytes up to q, which
      cover them, are kept. */
  lemma {:induction false} RecordsAtKept(cs: Schema, xs: seq<Record>, b1: seq<byte>, b: seq<byte>, base: nat, m: nat, q: nat)
    requires AllValid(cs) && AllSized(cs, xs) && m <= |cs|
    requires RecordsAt(cs, xs, b1, base, m) && base + Offset(cs, m) <= q <= |b| && q <= |b1|
    requires b[..q] == b1[..q]
    ensures RecordsAt(cs, xs, b, base, m)
  {
    forall i | 0 <= i < m
      ensures RecordAt(cs, xs, b, base, i)
    {
      assert RecordAt(cs, xs, b1, base, i);
      OffsetMono(cs, i + 1, m);
      RecordAtKept(cs, xs, b1, b, base, i, q);
    }
  }

  lemma {:induction false} RecordAtLast(cs: Schema, xs: seq<Record>, b: seq<byte>, base: nat, n: nat, p: nat, q: nat)
    requires AllValid(cs) && AllSized(cs, xs) && 0 < n <= |cs|
    requires p == base + Offset(cs, n - 1) && q == base + Offset(cs, n) && p <= q <= |b|
    requires Matches(cs[n - 1].load, cs[n - 1].toWire(Arg(xs[n - 1])), b[p..q])
    ensures RecordAt(cs, xs, b, base, n - 1)
  {
  }

  /** A record stays where it is when the bytes up to q are kept. */
  lemma {:induction false} RecordAtKept(cs: Schema, xs: seq<Record>, b1: seq<byte>, b: seq<byte>, base: nat, i: nat, q: nat)
    requires AllValid(cs) && AllSized(cs, xs) && i < |cs|
    requires RecordAt(cs, xs, b1, base, i) && base + Offset(cs, i + 1) <= q <= |b| && q <= |b1|
    requires b[..q] == b1[..q]
    ensures RecordAt(cs, xs, b, base, i)
  {
    PrefixSlices(b, b1, base + Offset(cs, i), base + Offset(cs, i + 1));
  }

  /** Bytes that hold the first n records hold the first n - 1, and record
      n - 1 after them. */
  lemma {:induction false} RecordsAtInit(cs: Schema, xs: seq<Record>, b: seq<byte>, base: nat, n: nat)
    requires AllValid(cs) && AllSized(cs, xs) && 0 < n <= |cs|
    requires RecordsAt(cs, xs, b, base, n)
    ensures RecordsAt(cs, xs, b, base, n - 1)
    ensures base + Offset(cs, n) <= |b|
    ensures Matches(cs[n - 1].load, cs[n - 1].toWire(Arg(xs[n - 1])), b[base + Offset(cs, n - 1)..base + Offset(cs, n)])
  {
    assert RecordAt(cs, xs, b, base, n - 1);
  }

  /** Saving records keeps the writer's allocation, length and liveness,
      whatever the records. */
  lemma {:induction false} SaveFirstKeeps(cs: Schema, xs: seq<Record>, w: Writer, n: nat)
    requires |xs| == |cs| && n <= |cs| && WriterOk(w)
    ensures var w' := SaveFirst(SaveOne, cs, xs, w, n);
            WriterOk(w') && |w'.buf| == |w.buf| && w'.cap == w.cap && w'.live == w.live
  {
    if n > 0 {
      SaveFirstKeeps(cs, xs, w, n - 1);
    }
  }

  lemma {:induction false} SaveFirstMatches(save: SaveStep, cs: Schema, xs: seq<Record>, w: Writer, n: nat)
    requires SavesRecords(save)
    requires AllValid(cs) && AllSized(cs, xs) && AllWellFormed(cs, xs) && n <= |cs|
    requires WriterOk(w) && CanWrite(w, Offset(cs, n))
    ensures var w' := SaveFirst(save, cs, xs, w, n);
            WriterOk(w') && |w'.buf| == |w.buf| && w'.cap == w.cap && w'.live == w.live &&
            w'.ptr == w.ptr + Offset(cs, n) && w'.buf[..w.ptr] == w.buf[..w.ptr] &&
            RecordsAt(cs, xs, w'.buf, w.ptr, n)
  {
    if n > 0 {
      OffsetMono(cs, n - 1, n);
      var w1 := SaveFirst(save, cs, xs, w, n - 1);
      SaveFirstMatches(save, cs, xs, w, n - 1);
      var w' := save(SaveCall(cs[n - 1], xs[n - 1], w1));
      assert SavedAt(cs[n - 1], xs[n - 1], w1, w');
      PrefixSlices(w'.buf, w1.buf, w.ptr, w1.ptr);
      RecordsAtSnoc(cs, xs, w1.buf, w'.buf, w.ptr, n, w1.ptr, w'.ptr);
    }
  }

  /** One use of LoadsRecords, at a reader whose next k - ptr bytes hold x. */
  lemma {:induction false} LoadAt(load: LoadStep, c: Codec, x: Record, dest: Record, r: Reader, k: nat)
    requires LoadsRecords(load) && Valid(c) && |x| == |c.mem| && |dest| == |c.mem|
    requires r.present && k == r.ptr + RecordSize(c) <= |r.data|
    requires Matches(c.load, c.toWire(Arg(x)), r.data[r.ptr..k])
    ensures load(LoadCall(c, dest, r)) == (Expected(c, x, dest), r.(ptr := k))
  {
  }

  lemma {:induction false} LoadFirstMatches(load: LoadStep, cs: Schema, xs: seq<Record>, dests: seq<Record>, r: Reader, n: nat)
    requires LoadsRecords(load)
    requires AllValid(cs) && AllSized(cs, xs) && AllSized(cs, dests) && n <= |cs|
    requires r.present && r.ptr <= |r.data| && RecordsAt(cs, xs, r.data, r.ptr, n)
    ensures r.ptr + Offset(cs, n) <= |r.data|
    ensures LoadFirst(load, cs, dests, r, n) == (ExpectedFirst(cs, xs, dests, n), r.(ptr := r.ptr + Offset(cs, n)))
  {
    if n > 0 {
      RecordsAtInit(cs, xs, r.data, r.ptr, n);
      LoadFirstMatches(load, cs, xs, dests, r, n - 1);
      var front := LoadFirst(load, cs, dests, r, n - 1);
      LoadAt(load, cs[n - 1], xs[n - 1], dests[n - 1], front.1, r.ptr + Offset(cs, n));
    }
  }

  /** SaveAll writes each record at its offset and advances past all of them. */
  lemma {:induction false} SaveAllMatches(cs: Schema, xs: seq<Record>, w: Writer)
    requires AllValid(cs) && AllSized(cs, xs) && AllWellFormed(cs, xs)
    requires WriterOk(w) && CanWrite(w, SchemaSize(cs))
    ensures var w' := SaveAll(cs, xs, w);
            w'.ptr == w.ptr + SchemaSize(cs) && w'.ptr <= |w'.buf| &&
            RecordsAt(cs, xs, w'.buf, w.ptr, |cs|)
  {
    SaveOneSaves();
    SaveFirstMatches(SaveOne, cs, xs, w, |cs|);
  }

  /** LoadAll over bytes that hold the records of xs yields their expected
      values and advances past all of them. */
  lemma {:induction false} LoadAllMatches(cs: Schema, xs: seq<Record>, dests: seq<Record>, r: Reader)
    requires AllValid(cs) && AllSized(cs, xs) && AllSized(cs, dests)
    requires r.present && r.ptr <= |r.data| && RecordsAt(cs, xs, r.data, r.ptr, |cs|)
    ensures LoadAll(cs, dests, r) == (ExpectedAll(cs, xs, dests), r.(ptr := r.ptr + SchemaSize(cs)))
  {
    LoadOneLoads();
    LoadFirstMatches(LoadOne, cs, xs, dests, r, |cs|);
  }

  /** Saving a run of records and loading it back: every record comes back
      as its Expected value and the read ends where the write ended. */
  lemma {:induction false} AllRoundTrip(cs: Schema, xs: seq<Record>, dests: seq<Record>, w: Writer)
    requires AllValid(cs) && AllSized(cs, xs) && AllWellFormed(cs, xs) && AllSized(cs, dests)
    requires WriterOk(w) && CanWrite(w, SchemaSize(cs))
    ensures var w' := SaveAll(cs, xs, w);
            w'.ptr == w.ptr + SchemaSize(cs) &&
            LoadAll(cs, dests, Reader(true, w'.buf, w.ptr)) ==
            (ExpectedAll(cs, xs, dests), Reader(true, w'.buf, w.ptr + SchemaSize(cs)))
  {
    var w' := SaveAll(cs, xs, w);
    SaveAllMatches(cs, xs, w);
    LoadAllMatches(cs, xs, dests, Reader(true, w'.buf, w.ptr));
  }

  // ---------------------------------------------------------------------
  // Schemas one after another

  lemma {:induction false} ConcatFacts(a: Schema, b: Schema, xa: seq<Record>, xb: seq<Record>)
    requires AllValid(a) && AllValid(b) && AllSized(a, xa) && AllSized(b, xb)
    ensures AllValid(a + b) && AllSized(a + b, xa + xb)
  {
    forall i | 0 <= i < |a + b| ensures Valid((a + b)[i]) {
      if i >= |a| {
        assert (a + b)[i] == b[i - |a|];
      }
    }
  }

  lemma {:induction false} SaveFirstPrefix(save: SaveStep, a: Schema, b: Schema, xa: seq<Record>, xb: seq<Record>, w: Writer, k: nat)
    requires |xa| == |a| && |xb| == |b| && k <= |a|
    ensures SaveFirst(save, a + b, xa + xb, w, k) == SaveFirst(save, a, xa, w, k)
  {
    if k > 0 {
      SaveFirstPrefix(save, a, b, xa, xb, w, k - 1);
      assert (a + b)[k - 1] == a[k - 1] && (xa + xb)[k - 1] == xa[k - 1];
    }
  }

  lemma {:induction false} SaveFirstSuffix(save: SaveStep, a: Schema, b: Schema, xa: seq<Record>, xb: seq<Record>, w: Writer, m: nat)
    requires |xa| == |a| && |xb| == |b| && m <= |b|
    ensures SaveFirst(save, a + b, xa + xb, w, |a| + m) == SaveFirst(save, b, xb, SaveFirst(save, a, xa, w, |a|), m)
  {
    if m == 0 {
      SaveFirstPrefix(save, a, b, xa, xb, w, |a|);
    } else {
      SaveFirstSuffix(save, a, b, xa, xb, w, m - 1);
      assert (a + b)[|a| + m - 1] == b[m - 1] && (xa + xb)[|a| + m - 1] == xb[m - 1];
    }
  }

  /** Saving a + b is saving a, then b from where a ended. */
  lemma {:induction false} SaveAllConcat(a: Schema, b: Schema, xa: seq<Record>, xb: seq<Record>, w: Writer)
    requires |xa| == |a| && |xb| == |b|
    ensures SaveAll(a + b, xa + xb, w) == SaveAll(b, xb, SaveAll(a, xa, w))
  {
    SaveFirstSuffix(SaveOne, a, b, xa, xb, w, |b|);
  }

  lemma {:induction false} LoadFirstPrefix(load: LoadStep, a: Schema, b: Schema, da: seq<Record>, db: seq<Record>, r: Reader, k: nat)
    requires |da| == |a| && |db| == |b| && k <= |a|
    ensures LoadFirst(load, a + b, da + db, r, k) == LoadFirst(load, a, da, r, k)
  {
    if k > 0 {
      LoadFirstPrefix(load, a, b, da, db, r, k - 1);
      assert (a + b)[k - 1] == a[k - 1] && (da + db)[k - 1] == da[k - 1];
    }
  }

  lemma {:induction false} LoadFirstSuffix(load: LoadStep, a: Schema, b: Schema, da: seq<Record>, db: seq<Record>, r: Reader, m: nat)
    requires |da| == |a| && |db| == |b| && m <= |b|
    ensures var front := LoadFirst(load, a, da, r, |a|);
            var back := LoadFirst(load, b, db, front.1, m);
            LoadFirst(load, a + b, da + db, r, |a| + m) == (front.0 + back.0, back.1)
  {
    var front := LoadFirst(load, a, da, r, |a|);
    if m == 0 {
      LoadFirstPrefix(load, a, b, da, db, r, |a|);
      assert front.0 + [] == front.0;
    } else {
      LoadFirstSuffix(load, a, b, da, db, r, m - 1);
      assert (a + b)[|a| + m - 1] == b[m - 1] && (da + db)[|a| + m - 1] == db[m - 1];
      var back := LoadFirst(load, b, db, front.1, m - 1);
      var last := load(LoadCall(b[m - 1], db[m - 1], back.1));
      assert front.0 + back.0 + [last.0] == front.0 + (back.0 + [last.0]);
    }
  }

  /** SaveFirst one record further. */
  lemma {:induction false} SaveFirstStep(cs: Schema, xs: seq<Record>, w: Writer, i: nat, before: Writer, after: Writer)
    requires |xs| == |cs| && i < |cs| && before == SaveFirst(SaveOne, cs, xs, w, i)
    requires Valid(cs[i]) && |xs[i]| == |cs[i].mem| && WriterOk(before) && after == Save(cs[i], xs[i], before)
    ensures after == SaveFirst(SaveOne, cs, xs, w, i + 1)
  {
  }

  /** LoadFirst one record further. */
  lemma {:induction false} LoadFirstStep(cs: Schema, dests: seq<Record>, r: Reader, i: nat)
    requires |dests| == |cs| && i < |cs|
    ensures var front := LoadFirst(LoadOne, cs, dests, r, i);
            var last := LoadOne(LoadCall(cs[i], dests[i], front.1));
            LoadFirst(LoadOne, cs, dests, r, i + 1).0 == front.0 + [last.0] &&
            LoadFirst(LoadOne, cs, dests, r, i + 1).1 == last.1
  {
  }

  /** Loading a + b is loading a, then b from where a ended. */
  lemma {:induction false} LoadAllConcat(a: Schema, b: Schema, da: seq<Record>, db: seq<Record>, r: Reader)
    requires |da| == |a| && |db| == |b|
    ensures var front := LoadAll(a, da, r);
            var back := LoadAll(b, db, front.1);
            LoadAll(a + b, da + db, r) == (front.0 + back.0, back.1)
  {
    LoadFirstSuffix(LoadOne, a, b, da, db, r, |b|);
  }

  /** Record by record, the expected values of a + b are those of a, then b. */
  lemma {:induction false} ExpectedAllConcat(a: Schema, b: Schema, xa: seq<Record>, xb: seq<Record>, da: seq<Record>, db: seq<Record>)
    requires AllValid(a) && AllValid(b) && AllSized(a, xa) && AllSized(b, xb) && AllSized(a, da) && AllSized(b, db)
    ensures AllValid(a + b) && AllSized(a + b, xa + xb) && AllSized(a + b, da + db)
    ensures ExpectedAll(a + b, xa + xb, da + db) == ExpectedAll(a, xa, da) + ExpectedAll(b, xb, db)
  {
    ConcatFacts(a, b, xa, xb);
    ConcatFacts(a, b, da, db);
    ExpectedAllAt(a, xa, da);
    ExpectedAllAt(b, xb, db);
    ExpectedAllAt(a + b, xa + xb, da + db);
    forall i | 0 <= i < |a + b|
      ensures ExpectedAll(a + b, xa + xb, da + db)[i] == (ExpectedAll(a, xa, da) + ExpectedAll(b, xb, db))[i]
    {
      if i < |a| {
        assert (a + b)[i] == a[i] && (xa + xb)[i] == xa[i] && (da + db)[i] == da[i];
      } else {
        assert (a + b)[i] == b[i - |a|] && (xa + xb)[i] == xb[i - |a|] && (da + db)[i] == db[i - |a|];
      }
    }
  }

  lemma {:induction false} OffsetPrefix(a: Schema, b: Schema, k: nat)
    requires k <= |a|
    ensures Offset(a + b, k) == Offset(a, k)
  {
    if k > 0 {
      OffsetPrefix(a, b, k - 1);
      assert (a + b)[k - 1] == a[k - 1];
    }
  }

  lemma {:induction false} OffsetSuffix(a: Schema, b: Schema, m: nat)
    requires m <= |b|
    ensures Offset(a + b, |a| + m) == SchemaSize(a) + Offset(b, m)
  {
    if m == 0 {
      OffsetPrefix(a, b, |a|);
    } else {
      OffsetSuffix(a, b, m - 1);
      assert (a + b)[|a| + m - 1] == b[m - 1];
    }
  }

  /** The bytes a + b takes are those of a, then those of b. */
  lemma {:induction false} SchemaSizeConcat(a: Schema, b: Schema)
    ensures SchemaSize(a + b) == SchemaSize(a) + SchemaSize(b)
  {
    OffsetSuffix(a, b, |b|);
  }

  // ---------------------------------------------------------------------
  // The cursor methods

  method LoadRecord(file: LoadHelper, c: Codec, dest: Record) returns (x: Record)
    requires Valid(c) && |dest| == |c.mem|
    modifies file
    ensures (x, file.State()) == Load(c, dest, old(file.State()))
  {
    var rec := LoadFields(file, c.load, c.view(Arg(dest)));
    x := c.fromWire(Arg(rec), Arg(dest));
  }

  method SaveRecord(file: SaveHelper, c: Codec, x: Record)
    requires Valid(c) && |x| == |c.mem| && file.Valid()
    modifies file, file.buffer
    ensures file.Valid() && file.buffer == old(file.buffer)
    ensures file.State() == Save(c, x, old(file.State()))
  {
    SaveFields(file, c.save, c.toWire(Arg(x)));
  }

  /** LoadItems(file, n, pItem) and its kin: a[0 .. n) loaded in order,
      each into its own old contents; the rest of the array is untouched. */
  method LoadArray(file: LoadHelper, c: Codec, a: array<Record>, n: nat)
    requires Valid(c) && n <= a.Length && AllSized(Copies(c, n), a[..n])
    modifies file, a
    ensures (a[..n], file.State()) == LoadAll(Copies(c, n), old(a[..n]), old(file.State()))
    ensures a[n..] == old(a[n..])
  {
    ghost var cs, dests, r := Copies(c, n), a[..n], file.State();
    var i := 0;
    while i < n
      invariant 0 <= i <= n
      invariant a[i..] == old(a[i..])
      invariant a[..i] == LoadFirst(LoadOne, cs, dests, r, i).0
      invariant file.State() == LoadFirst(LoadOne, cs, dests, r, i).1
    {
      ghost var done := a[..i];
      assert a[i] == dests[i];
      var x := LoadRecord(file, c, a[i]);
      LoadFirstStep(cs, dests, r, i);
      a[i] := x;
      assert a[..i + 1] == done + [x];
      i := i + 1;
    }
  }

  /** SaveItems(file, pItem, n) and its kin: a[0 .. n) saved in order. */
  method SaveArray(file: SaveHelper, c: Codec, a: array<Record>, n: nat)
    requires Valid(c) && n <= a.Length && AllSized(Copies(c, n), a[..n]) && file.Valid()
    modifies file, file.buffer
    ensures file.Valid() && file.buffer == old(file.buffer)
    ensures file.State() == SaveAll(Copies(c, n), a[..n], old(file.State()))
  {
    ghost var cs, xs, w := Copies(c, n), a[..n], file.State();
    var i := 0;
    while i < n
      invariant 0 <= i <= n
      invariant file.Valid() && file.buffer == old(file.buffer)
      invariant file.State() == SaveFirst(SaveOne, cs, xs, w, i)
    {
      assert a[i] == xs[i] && cs[i] == c;
      ghost var before := file.State();
      SaveRecord(file, c, a[i]);
      SaveFirstStep(cs, xs, w, i, before, file.State());
      i := i + 1;
    }
  }

  /** A fixed sequence of Save calls, one record per codec of the schema,
      as SavePlayer, SaveGame and SaveLevel issue them. */
  method SaveRun(file: SaveHelper, cs: Schema, xs: seq<Record>)
    requires AllValid(cs) && AllSized(cs, xs) && file.Valid()
    modifies file, file.buffer
    ensures file.Valid() && file.buffer == old(file.buffer)
    ensures file.State() == SaveAll(cs, xs, old(file.State()))
  {
    ghost var w := file.State();
    var i := 0;
    while i < |cs|
      invariant 0 <= i <= |cs|
      invariant file.Valid() && file.buffer == old(file.buffer)
      invariant file.State() == SaveFirst(SaveOne, cs, xs, w, i)
    {
      ghost var before := file.State();
      SaveRecord(file, cs[i], xs[i]);
      SaveFirstStep(cs, xs, w, i, before, file.State());
      i := i + 1;
    }
  }

  /** The matching sequence of Load calls, record i into dests[i]. */
  method LoadRun(file: LoadHelper, cs: Schema, dests: seq<Record>) returns (ys: seq<Record>)
    requires AllValid(cs) && AllSized(cs, dests)
    modifies file
    ensures (ys, file.State()) == LoadAll(cs, dests, old(file.State()))
  {
    ghost var r := file.State();
    ys := [];
    var i := 0;
    while i < |cs|
      invariant 0 <= i <= |cs|
      invariant ys == LoadFirst(LoadOne, cs, dests, r, i).0
      invariant file.State() == LoadFirst(LoadOne, cs, dests, r, i).1
    {
      var x := LoadRecord(file, cs[i], dests[i]);
      LoadFirstStep(cs, dests, r, i);
      ys := ys + [x];
      i := i + 1;
    }
  }
}

/** Records as ordered lists of typed field descriptors, with one generic
    encoder and one generic decoder over a cursor.

    Every Load and Save function of Source/loadsave.cpp is a fixed sequence
    of cursor calls: U8 (next<Uint8>/writeByte), LE16/LE32/LE64
    (nextLE/writeLE), BE32 (nextBE/writeBE), Bool8/Bool32 (nextBool8 and
    nextBool32, or a bool stored from next<Uint8>, written back with
    writeByte/writeLE), Bytes(n) (nextBytes/writeBytes) and Skip(n) (skip). A Layout lists those calls in order, each named after
    the field it moves; a Record holds one Value per descriptor. The round
    trip (decode what was encoded, same widths and orders) is proved here
    once for every layout. */
module Layout {
  import opened Wire
  import opened Cursor

  datatype Kind = U8 | LE16 | LE32 | LE64 | BE32 | Bool8 | Bool32 | Bytes(n: nat) | Skip(n: nat)

  /** One member of a structure as it is written; the member's name in the
      source is given in a comment beside each layout. */
  datatype Field = Field(kind: Kind)

  type Layout = seq<Field>

  /** A field's value: a number for the integer kinds, a byte string for
      Bytes(n). Skip slots carry whatever the in-memory structure holds
      there (an address, an unused word); the codec never reads them. */
  datatype Value = Num(n: nat) | Blob(b: seq<byte>)

  type Record = seq<Value>

  function Width(k: Kind): nat
  {
    match k
    case U8 => 1
    case LE16 => 2
    case LE32 => 4
    case LE64 => 8
    case BE32 => 4
    case Bool8 => 1
    case Bool32 => 4
    case Bytes(n) => n
    case Skip(n) => n
  }

  function OrderOf(k: Kind): Order
  {
    if k.BE32? then BigEndian else LittleEndian
  }

  predicate IsNumeric(k: Kind)
  {
    !k.Bytes? && !k.Skip?
  }

  predicate IsBool(k: Kind)
  {
    k.Bool8? || k.Bool32?
  }

  /** The in-memory value a numeric read of x produces: a bool field holds
      x != 0, every other field the value itself. */
  function Interpret(k: Kind, x: nat): (v: nat)
    ensures IsBool(k) ==> v < 2 && (v == 0 <==> x == 0)
    ensures !IsBool(k) ==> v == x
  {
    if IsBool(k) then (if x != 0 then 1 else 0) else x
  }

  /** Exclusive upper bound of the in-memory values a numeric field holds. */
  function Bound(k: Kind): nat
  {
    if IsBool(k) then 2 else Pow256(Width(k))
  }

  /** Number of bytes a layout occupies on the wire. */
  function Size(L: Layout): nat
    decreases |L|
  {
    if |L| == 0 then 0 else Width(L[0].kind) + Size(L[1..])
  }

  /** n copies of one field, as the source's fixed-count for loops write them. */
  function Repeat(f: Field, n: nat): (L: Layout)
    ensures |L| == n && forall i :: 0 <= i < n ==> L[i] == f
  {
    seq(n, _ => f)
  }

  /** The value has the shape of its descriptor (a number, or n bytes). */
  predicate Shaped(k: Kind, v: Value)
  {
    match k
    case Skip(_) => true
    case Bytes(n) => v.Blob? && |v.b| == n
    case _ => v.Num?
  }

  /** The value has the shape of its descriptor and a number fits its
      width (a bool is 0 or 1). */
  predicate Fits(k: Kind, v: Value)
  {
    Shaped(k, v) && (IsNumeric(k) ==> v.n < Bound(k))
  }

  predicate WellFormed(L: Layout, rec: Record)
  {
    |rec| == |L| && forall i :: 0 <= i < |L| ==> Fits(L[i].kind, rec[i])
  }

  /** The value each slot takes after decoding: the record's value, except
      at Skip slots, where the destination is left as it was. */
  function Merge(L: Layout, rec: Record, dest: Record): (m: Record)
    requires |rec| == |L| && |dest| == |L|
    ensures |m| == |L|
    ensures forall i :: 0 <= i < |L| ==> m[i] == if L[i].kind.Skip? then dest[i] else rec[i]
  {
    seq(|L|, i requires 0 <= i < |L| => if L[i].kind.Skip? then dest[i] else rec[i])
  }

  // ---------------------------------------------------------------------
  // Runs of fields, for any one-field step

  /** One field's Save call, one field's Load call, and what a field's chunk
      of bytes must be for its value. */
  type FieldWrite = (Kind, Value, Writer) -> Writer
  type FieldRead = (Kind, Value, Reader) -> (Value, Reader)
  type FieldCheck = (Kind, Value, seq<byte>) -> bool

  /** The Save calls of a layout, in order. */
  function WriteAll(enc: FieldWrite, L: Layout, rec: Record, w: Writer): Writer
    requires |rec| == |L|
    decreases |L|
  {
    if |L| == 0 then w else WriteAll(enc, L[1..], rec[1..], enc(L[0].kind, rec[0], w))
  }

  /** The Load calls of a layout, in order, each writing one slot. */
  function ReadAll(dec: FieldRead, L: Layout, dest: Record, r: Reader): (res: (Record, Reader))
    requires |dest| == |L|
    ensures |res.0| == |L|
    decreases |L|
  {
    if |L| == 0 then
      ([], r)
    else
      var (v, r1) := dec(L[0].kind, dest[0], r);
      var (vs, r2) := ReadAll(dec, L[1..], dest[1..], r1);
      ([v] + vs, r2)
  }

  /** bs splits, field by field, into chunks of the fields' widths, each of
      which fm accepts for the field's value. */
  predicate MatchesWith(fm: FieldCheck, L: Layout, rec: Record, bs: seq<byte>)
    requires |rec| == |L|
    decreases |L|
  {
    if |L| == 0 then
      |bs| == 0
    else
      var k := Width(L[0].kind);
      k <= |bs| && fm(L[0].kind, rec[0], bs[..k]) && MatchesWith(fm, L[1..], rec[1..], bs[k..])
  }

  /** w' is w advanced by n bytes, with only those n bytes changed. */
  ghost predicate Advanced(w: Writer, w': Writer, n: nat)
  {
    WriterOk(w') && |w'.buf| == |w.buf| && w'.cap == w.cap && w'.live == w.live &&
    w'.ptr == w.ptr + n && w'.ptr <= w'.cap &&
    w'.buf[..w.ptr] == w.buf[..w.ptr] && w'.buf[w'.ptr..] == w.buf[w'.ptr..]
  }

  /** enc writes a fitting value, when there is room, as a chunk fm accepts. */
  ghost predicate WritesFields(enc: FieldWrite, fm: FieldCheck)
  {
    forall k: Kind, v: Value, w: Writer {:trigger enc(k, v, w)} ::
      WriterOk(w) && Fits(k, v) && w.live && w.ptr + Width(k) <= w.cap ==>
      Advanced(w, enc(k, v, w), Width(k)) && fm(k, v, enc(k, v, w).buf[w.ptr..w.ptr + Width(k)])
  }

  /** enc keeps a writer's allocation, length and liveness. */
  ghost predicate KeepsWriter(enc: FieldWrite)
  {
    forall k: Kind, v: Value, w: Writer {:trigger enc(k, v, w)} ::
      WriterOk(w) ==> WriterOk(enc(k, v, w)) && |enc(k, v, w).buf| == |w.buf| &&
                      enc(k, v, w).cap == w.cap && enc(k, v, w).live == w.live
  }

  /** dec keeps the reader's bytes and never moves backwards. */
  ghost predicate KeepsReader(dec: FieldRead)
  {
    forall k: Kind, d: Value, r: Reader {:trigger dec(k, d, r)} ::
      dec(k, d, r).1.present == r.present && dec(k, d, r).1.data == r.data && dec(k, d, r).1.ptr >= r.ptr
  }

  /** The field's chunk at the reader's position (empty past the end). */
  function Chunk(r: Reader, k: Kind): seq<byte>
  {
    if r.ptr + Width(k) <= |r.data| then r.data[r.ptr..r.ptr + Width(k)] else []
  }

  /** dec reads back, from a chunk fm accepts for v, the value v (the
      destination for a Skip) and advances by the field's width. */
  ghost predicate ReadsFields(dec: FieldRead, fm: FieldCheck)
  {
    forall k: Kind, v: Value, d: Value, r: Reader {:trigger dec(k, d, r), fm(k, v, Chunk(r, k))} ::
      r.present && r.ptr + Width(k) <= |r.data| && fm(k, v, Chunk(r, k)) ==>
      dec(k, d, r) == (if k.Skip? then d else v, r.(ptr := r.ptr + Width(k)))
  }

  lemma {:induction false} SizeConcat(A: Layout, B: Layout)
    ensures Size(A + B) == Size(A) + Size(B)
    decreases |A|
  {
    if |A| > 0 {
      assert (A + B)[0] == A[0];
      assert (A + B)[1..] == A[1..] + B;
      SizeConcat(A[1..], B);
    } else {
      assert A + B == B;
    }
  }

  lemma {:induction false} SizeRepeat(f: Field, n: nat)
    ensures Size(Repeat(f, n)) == n * Width(f.kind)
  {
    if n > 0 {
      assert Repeat(f, n)[1..] == Repeat(f, n - 1);
      SizeRepeat(f, n - 1);
    }
  }

  lemma {:induction false} WellFormedTail(L: Layout, rec: Record)
    requires |L| > 0 && WellFormed(L, rec)
    ensures WellFormed(L[1..], rec[1..]) && Fits(L[0].kind, rec[0])
  {
    forall i | 0 <= i < |L| - 1 ensures Fits(L[1..][i].kind, rec[1..][i]) {
      assert L[1..][i] == L[i + 1] && rec[1..][i] == rec[i + 1];
    }
  }

  lemma {:induction false} MergeCons(L: Layout, rec: Record, dest: Record)
    requires |L| > 0 && |rec| == |L| && |dest| == |L|
    ensures Merge(L, rec, dest) ==
            [if L[0].kind.Skip? then dest[0] else rec[0]] + Merge(L[1..], rec[1..], dest[1..])
  {
  }

  lemma {:induction false} WriteAllKeeps(enc: FieldWrite, L: Layout, rec: Record, w: Writer)
    requires KeepsWriter(enc) && |rec| == |L|
    ensures var w' := WriteAll(enc, L, rec, w);
            WriterOk(w) ==> WriterOk(w') && |w'.buf| == |w.buf| && w'.cap == w.cap && w'.live == w.live
    decreases |L|
  {
    if |L| > 0 {
      WriteAllKeeps(enc, L[1..], rec[1..], enc(L[0].kind, rec[0], w));
    }
  }

  lemma {:induction false} ReadAllKeeps(dec: FieldRead, L: Layout, dest: Record, r: Reader)
    requires KeepsReader(dec) && |dest| == |L|
    ensures var r' := ReadAll(dec, L, dest, r).1;
            r'.present == r.present && r'.data == r.data && r'.ptr >= r.ptr
    decreases |L|
  {
    if |L| > 0 {
      ReadAllKeeps(dec, L[1..], dest[1..], dec(L[0].kind, dest[0], r).1);
    }
  }

  /** A field's chunk at p and the rest's chunk at p + k, written one after
      the other, form the record's chunk; bytes outside it are those of the
      buffer before both writes. */
  lemma {:induction false} JoinChunks(fm: FieldCheck, L: Layout, rec: Record, b0: seq<byte>, b1: seq<byte>, b2: seq<byte>, p: nat, k: nat, m: nat)
    requires |L| > 0 && |rec| == |L| && k == Width(L[0].kind)
    requires |b1| == |b0| && |b2| == |b0| && p + k + m <= |b0|
    requires b1[..p] == b0[..p] && b1[p + k..] == b0[p + k..] && fm(L[0].kind, rec[0], b1[p..p + k])
    requires b2[..p + k] == b1[..p + k] && b2[p + k + m..] == b1[p + k + m..]
    requires MatchesWith(fm, L[1..], rec[1..], b2[p + k..p + k + m])
    ensures b2[..p] == b0[..p] && b2[p + k + m..] == b0[p + k + m..]
    ensures MatchesWith(fm, L, rec, b2[p..p + k + m])
  {
    var region := b2[p..p + k + m];
    assert region[..k] == b2[..p + k][p..] == b1[..p + k][p..] == b1[p..p + k];
    assert region[k..] == b2[p + k..p + k + m];
    assert b2[..p] == b2[..p + k][..p] == b1[..p + k][..p] == b1[..p];
    assert b2[p + k + m..] == b1[p + k + m..] == b1[p + k..][m..] == b0[p + k..][m..];
  }

  /** Writing a well-formed record that fits in the remaining buffer writes
      exactly Size(L) bytes at the position, which match the record, and
      leaves every other byte of the buffer alone. */
  lemma {:induction false} WriteAllMatches(enc: FieldWrite, fm: FieldCheck, L: Layout, rec: Record, w: Writer)
    requires WritesFields(enc, fm)
    requires WriterOk(w) && WellFormed(L, rec) && w.live && w.ptr + Size(L) <= w.cap
    ensures var w' := WriteAll(enc, L, rec, w);
            Advanced(w, w', Size(L)) && MatchesWith(fm, L, rec, w'.buf[w.ptr..w'.ptr])
    decreases |L|
  {
    if |L| > 0 {
      WellFormedTail(L, rec);
      var w1 := enc(L[0].kind, rec[0], w);
      WriteAllMatches(enc, fm, L[1..], rec[1..], w1);
      var w' := WriteAll(enc, L[1..], rec[1..], w1);
      JoinChunks(fm, L, rec, w.buf, w1.buf, w'.buf, w.ptr, Width(L[0].kind), Size(L[1..]));
    }
  }

  /** The chunk of a record splits into its first field's chunk and the
      chunk of the rest. */
  lemma {:induction false} SplitChunk(fm: FieldCheck, L: Layout, rec: Record, r: Reader, k: nat, m: nat)
    requires |L| > 0 && |rec| == |L| && k == Width(L[0].kind) && m == Size(L[1..])
    requires r.ptr + k + m <= |r.data| && MatchesWith(fm, L, rec, r.data[r.ptr..r.ptr + k + m])
    ensures fm(L[0].kind, rec[0], Chunk(r, L[0].kind))
    ensures MatchesWith(fm, L[1..], rec[1..], r.data[r.ptr + k..r.ptr + k + m])
  {
    var chunk := r.data[r.ptr..r.ptr + k + m];
    assert r.ptr + Width(L[0].kind) <= |r.data|;
    assert chunk[..k] == r.data[r.ptr..r.ptr + k];
    assert r.data[r.ptr..r.ptr + k] == Chunk(r, L[0].kind);
    assert chunk[k..] == r.data[r.ptr + k..r.ptr + k + m];
  }

  /** One use of ReadsFields. */
  lemma {:induction false} ReadOne(dec: FieldRead, fm: FieldCheck, k: Kind, v: Value, d: Value, r: Reader)
    requires ReadsFields(dec, fm)
    requires r.present && r.ptr + Width(k) <= |r.data| && fm(k, v, Chunk(r, k))
    ensures dec(k, d, r) == (if k.Skip? then d else v, r.(ptr := r.ptr + Width(k)))
  {
  }

  /** Reading bytes that match rec, when they all lie inside the buffer,
      yields rec (and the destination at Skip slots) and advances the
      position by exactly Size(L). */
  lemma {:induction false} ReadAllMatches(dec: FieldRead, fm: FieldCheck, L: Layout, rec: Record, dest: Record, r: Reader)
    requires ReadsFields(dec, fm)
    requires |rec| == |L| && |dest| == |L|
    requires r.present && r.ptr + Size(L) <= |r.data|
    requires MatchesWith(fm, L, rec, r.data[r.ptr..r.ptr + Size(L)])
    ensures ReadAll(dec, L, dest, r) == (Merge(L, rec, dest), r.(ptr := r.ptr + Size(L)))
    decreases |L|
  {
    if |L| > 0 {
      var k := Width(L[0].kind);
      SplitChunk(fm, L, rec, r, k, Size(L[1..]));
      var r1 := r.(ptr := r.ptr + k);
      var v := if L[0].kind.Skip? then dest[0] else rec[0];
      ReadOne(dec, fm, L[0].kind, rec[0], dest[0], r);
      assert dec(L[0].kind, dest[0], r) == (v, r1);
      ReadAllMatches(dec, fm, L[1..], rec[1..], dest[1..], r1);
      var rest := ReadAll(dec, L[1..], dest[1..], r1);
      assert rest == (Merge(L[1..], rec[1..], dest[1..]), r1.(ptr := r1.ptr + Size(L[1..])));
      assert ReadAll(dec, L, dest, r) == ([v] + rest.0, rest.1);
      MergeCons(L, rec, dest);
    }
  }

  lemma {:induction false} MatchesWithSize(fm: FieldCheck, L: Layout, rec: Record, bs: seq<byte>)
    requires |rec| == |L| && MatchesWith(fm, L, rec, bs)
    ensures |bs| == Size(L)
    decreases |L|
  {
    if |L| > 0 {
      MatchesWithSize(fm, L[1..], rec[1..], bs[Width(L[0].kind)..]);
    }
  }

  /** Concatenated layouts match concatenated records on split bytes. */
  lemma {:induction false} MatchesWithConcat(fm: FieldCheck, A: Layout, B: Layout, ra: Record, rb: Record, bs: seq<byte>)
    requires |ra| == |A| && |rb| == |B| && Size(A) <= |bs|
    ensures MatchesWith(fm, A + B, ra + rb, bs) <==> MatchesWith(fm, A, ra, bs[..Size(A)]) && MatchesWith(fm, B, rb, bs[Size(A)..])
    decreases |A|
  {
    if |A| == 0 {
      assert A + B == B && ra + rb == rb && bs[Size(A)..] == bs;
    } else {
      var k := Width(A[0].kind);
      assert (A + B)[0] == A[0] && (ra + rb)[0] == ra[0];
      assert (A + B)[1..] == A[1..] + B && (ra + rb)[1..] == ra[1..] + rb;
      assert bs[..Size(A)][..k] == bs[..k];
      assert bs[..Size(A)][k..] == bs[k..][..Size(A[1..])];
      assert bs[Size(A)..] == bs[k..][Size(A[1..])..];
      MatchesWithConcat(fm, A[1..], B, ra[1..], rb, bs[k..]);
    }
  }

  lemma {:induction false} ReadAllConcat(dec: FieldRead, A: Layout, B: Layout, da: Record, db: Record, r: Reader)
    requires |da| == |A| && |db| == |B|
    ensures ReadAll(dec, A + B, da + db, r) ==
            var (ra, r1) := ReadAll(dec, A, da, r);
            var (rb, r2) := ReadAll(dec, B, db, r1);
            (ra + rb, r2)
    decreases |A|
  {
    if |A| > 0 {
      assert (A + B)[0] == A[0] && (da + db)[0] == da[0];
      assert (A + B)[1..] == A[1..] + B && (da + db)[1..] == da[1..] + db;
      var (v, r1) := dec(A[0].kind, da[0], r);
      ReadAllConcat(dec, A[1..], B, da[1..], db, r1);
      var (ra, ra1) := ReadAll(dec, A[1..], da[1..], r1);
      var (rb, rb1) := ReadAll(dec, B, db, ra1);
      assert [v] + (ra + rb) == ([v] + ra) + rb;
    } else {
      assert A + B == B && da + db == db;
      var (rb, r2) := ReadAll(dec, B, db, r);
      assert [] + rb == rb;
    }
  }

  lemma {:induction false} WriteAllConcat(enc: FieldWrite, A: Layout, B: Layout, ra: Record, rb: Record, w: Writer)
    requires |ra| == |A| && |rb| == |B|
    ensures WriteAll(enc, A + B, ra + rb, w) == WriteAll(enc, B, rb, WriteAll(enc, A, ra, w))
    decreases |A|
  {
    if |A| > 0 {
      assert (A + B)[0] == A[0] && (ra + rb)[0] == ra[0];
      assert (A + B)[1..] == A[1..] + B && (ra + rb)[1..] == ra[1..] + rb;
      WriteAllConcat(enc, A[1..], B, ra[1..], rb, enc(A[0].kind, ra[0], w));
    } else {
      assert A + B == B && ra + rb == rb;
    }
  }

  lemma {:induction false} ReadAllSingle(dec: FieldRead, f: Field, d: Value, r: Reader)
    ensures ReadAll(dec, [f], [d], r) == ([dec(f.kind, d, r).0], dec(f.kind, d, r).1)
  {
    assert [f][1..] == [] && [d][1..] == [];
    var (v, r1) := dec(f.kind, d, r);
    assert ReadAll(dec, [], [], r1) == ([], r1);
    assert [v] + [] == [v];
  }

  lemma {:induction false} WriteAllSingle(enc: FieldWrite, f: Field, v: Value, w: Writer)
    ensures WriteAll(enc, [f], [v], w) == enc(f.kind, v, w)
  {
    assert [f][1..] == [] && [v][1..] == [];
  }

  // ---------------------------------------------------------------------
  // The cursor calls of Source/loadsave.cpp

  function DestBytes(v: Value): seq<byte>
  {
    if v.Blob? then v.b else []
  }

  /** One cursor call of a Load function, writing into the slot dest. */
  function DecodeField(k: Kind, dest: Value, r: Reader): (res: (Value, Reader))
    ensures res.1.present == r.present && res.1.data == r.data && res.1.ptr >= r.ptr
  {
    match k
    case Skip(n) => (dest, SkipRead(r, n))
    case Bytes(n) =>
      var (b, r') := ReadBytes(r, n, DestBytes(dest));
      (Blob(b), r')
    case _ =>
      var (v, r') := ReadNum(r, OrderOf(k), Width(k));
      (Num(Interpret(k, v)), r')
  }

  /** The number a value carries (0 for a byte string). */
  function NumOf(v: Value): nat
  {
    if v.Num? then v.n else 0
  }

  /** Exactly n bytes of b: cut, or padded with zeros. */
  function FitBytes(b: seq<byte>, n: nat): (r: seq<byte>)
    ensures |r| == n
    ensures |b| == n ==> r == b
  {
    if |b| >= n then b[..n] else b + seq(n - |b|, _ => 0 as byte)
  }

  /** The bytes one Save call writes: the value reduced to the field's width
      in the field's byte order, or the array's n bytes. */
  function FieldBytes(k: Kind, v: Value): (bs: seq<byte>)
    requires !k.Skip?
    ensures |bs| == Width(k)
  {
    match k
    case Bytes(n) => FitBytes(DestBytes(v), n)
    case _ => Encode(OrderOf(k), NumOf(v), Width(k))
  }

  /** One cursor call of a Save function. (A writer whose allocation is
      shorter than its length, the last case, never arises: SaveHelper
      allocates at least m_bufferLen bytes.) */
  function EncodeField(k: Kind, v: Value, w: Writer): (w': Writer)
    ensures WriterOk(w) ==> WriterOk(w') && |w'.buf| == |w.buf| && w'.cap == w.cap && w'.live == w.live
  {
    if k.Skip? then SkipWrite(w, k.n)
    else if WriterOk(w) then WriteRaw(w, FieldBytes(k, v))
    else w
  }

  /** The chunk holds exactly what the field's Save call writes for v (any
      bytes for a Skip). */
  predicate FieldMatches(k: Kind, v: Value, chunk: seq<byte>)
  {
    match k
    case Skip(_) => true
    case Bytes(_) => v == Blob(chunk)
    case _ => v == Num(Interpret(k, Decode(OrderOf(k), chunk)))
  }

  /** A whole Load function: its calls in layout order. */
  function DecodeFields(L: Layout, dest: Record, r: Reader): (res: (Record, Reader))
    requires |dest| == |L|
    ensures |res.0| == |L|
    ensures res.1.present == r.present && res.1.data == r.data && res.1.ptr >= r.ptr
  {
    ReadAllKeeps(DecodeField, L, dest, r);
    ReadAll(DecodeField, L, dest, r)
  }

  /** A whole Save function: its calls in layout order. */
  function EncodeFields(L: Layout, rec: Record, w: Writer): (w': Writer)
    requires |rec| == |L|
    ensures WriterOk(w) ==> WriterOk(w') && |w'.buf| == |w.buf| && w'.cap == w.cap && w'.live == w.live
  {
    WriteAllKeeps(EncodeField, L, rec, w);
    WriteAll(EncodeField, L, rec, w)
  }

  /** bs is an encoding of rec under L: field by field, each chunk of the
      field's width holds what the field's Save call writes. */
  predicate Matches(L: Layout, rec: Record, bs: seq<byte>)
    requires |rec| == |L|
  {
    MatchesWith(FieldMatches, L, rec, bs)
  }

  /** Ll reads what Ls wrote, except that some fields Ls writes are skipped
      by Ll (same width). */
  predicate Coarsens(Ll: Layout, Ls: Layout)
  {
    |Ll| == |Ls| &&
    forall i :: 0 <= i < |Ll| ==> Ll[i].kind == Ls[i].kind || Ll[i].kind == Skip(Width(Ls[i].kind))
  }

  lemma {:induction false} CoarsensSize(Ll: Layout, Ls: Layout)
    requires Coarsens(Ll, Ls)
    ensures Size(Ll) == Size(Ls)
    decreases |Ll|
  {
    if |Ll| > 0 {
      assert Ll[0].kind == Ls[0].kind || Ll[0].kind == Skip(Width(Ls[0].kind));
      assert Coarsens(Ll[1..], Ls[1..]) by {
        forall i | 0 <= i < |Ll[1..]|
          ensures Ll[1..][i].kind == Ls[1..][i].kind || Ll[1..][i].kind == Skip(Width(Ls[1..][i].kind))
        {
          assert Ll[1..][i] == Ll[i + 1] && Ls[1..][i] == Ls[i + 1];
        }
      }
      CoarsensSize(Ll[1..], Ls[1..]);
    }
  }

  /** Bytes written by a Save layout also match the coarser Load layout. */
  lemma {:induction false} CoarsenMatches(Ll: Layout, Ls: Layout, rec: Record, bs: seq<byte>)
    requires Coarsens(Ll, Ls) && |rec| == |Ls| && MatchesWith(FieldMatches, Ls, rec, bs)
    ensures MatchesWith(FieldMatches, Ll, rec, bs)
    decreases |Ll|
  {
    if |Ll| > 0 {
      assert Ll[0].kind == Ls[0].kind || Ll[0].kind == Skip(Width(Ls[0].kind));
      assert Coarsens(Ll[1..], Ls[1..]) by {
        forall i | 0 <= i < |Ll[1..]|
          ensures Ll[1..][i].kind == Ls[1..][i].kind || Ll[1..][i].kind == Skip(Width(Ls[1..][i].kind))
        {
          assert Ll[1..][i] == Ll[i + 1] && Ls[1..][i] == Ls[i + 1];
        }
      }
      CoarsenMatches(Ll[1..], Ls[1..], rec[1..], bs[Width(Ls[0].kind)..]);
    }
  }

  lemma {:induction false} MatchesSize(L: Layout, rec: Record, bs: seq<byte>)
    requires |rec| == |L| && Matches(L, rec, bs)
    ensures |bs| == Size(L)
  {
    MatchesWithSize(FieldMatches, L, rec, bs);
  }

  lemma {:induction false} MatchesConcat(A: Layout, B: Layout, ra: Record, rb: Record, bs: seq<byte>)
    requires |ra| == |A| && |rb| == |B| && Size(A) <= |bs|
    ensures Matches(A + B, ra + rb, bs) <==> Matches(A, ra, bs[..Size(A)]) && Matches(B, rb, bs[Size(A)..])
  {
    MatchesWithConcat(FieldMatches, A, B, ra, rb, bs);
  }

  lemma {:induction false} DecodeConcat(A: Layout, B: Layout, da: Record, db: Record, r: Reader)
    requires |da| == |A| && |db| == |B|
    ensures DecodeFields(A + B, da + db, r) ==
            var (ra, r1) := DecodeFields(A, da, r);
            var (rb, r2) := DecodeFields(B, db, r1);
            (ra + rb, r2)
  {
    ReadAllConcat(DecodeField, A, B, da, db, r);
  }

  lemma {:induction false} EncodeConcat(A: Layout, B: Layout, ra: Record, rb: Record, w: Writer)
    requires |ra| == |A| && |rb| == |B|
    ensures EncodeFields(A + B, ra + rb, w) == EncodeFields(B, rb, EncodeFields(A, ra, w))
  {
    WriteAllConcat(EncodeField, A, B, ra, rb, w);
  }

  lemma {:induction false} DecodeSingle(f: Field, d: Value, r: Reader)
    ensures DecodeFields([f], [d], r) == ([DecodeField(f.kind, d, r).0], DecodeField(f.kind, d, r).1)
  {
    ReadAllSingle(DecodeField, f, d, r);
  }

  lemma {:induction false} EncodeSingle(f: Field, v: Value, w: Writer)
    ensures EncodeFields([f], [v], w) == EncodeField(f.kind, v, w)
  {
    WriteAllSingle(EncodeField, f, v, w);
  }

  /** One field written without being dropped: its chunk matches the value
      and nothing outside the chunk changes. */
  lemma {:induction false} EncodeFieldMatches(k: Kind, v: Value, w: Writer)
    requires WriterOk(w) && Fits(k, v) && w.live && w.ptr + Width(k) <= w.cap
    ensures var w' := EncodeField(k, v, w);
            w'.ptr == w.ptr + Width(k) &&
            w'.buf[..w.ptr] == w.buf[..w.ptr] &&
            w'.buf[w.ptr + Width(k)..] == w.buf[w.ptr + Width(k)..] &&
            FieldMatches(k, v, w'.buf[w.ptr..w.ptr + Width(k)])
  {
    if !k.Skip? && !k.Bytes? {
      RoundTrip(OrderOf(k), v.n, Width(k));
    }
  }

  lemma {:induction false} EncodeFieldWrites()
    ensures WritesFields(EncodeField, FieldMatches)
  {
    forall k: Kind, v: Value, w: Writer | WriterOk(w) && Fits(k, v) && w.live && w.ptr + Width(k) <= w.cap
      ensures Advanced(w, EncodeField(k, v, w), Width(k)) && FieldMatches(k, v, EncodeField(k, v, w).buf[w.ptr..w.ptr + Width(k)])
    {
      EncodeFieldMatches(k, v, w);
    }
  }

  /** Encoding a well-formed record that fits in the remaining buffer writes
      exactly Size(L) bytes at the position, which match the record, and
      leaves every other byte of the buffer alone. */
  lemma {:induction false} EncodeMatches(L: Layout, rec: Record, w: Writer)
    requires WriterOk(w) && WellFormed(L, rec) && w.live && w.ptr + Size(L) <= w.cap
    ensures var w' := EncodeFields(L, rec, w);
            w'.ptr == w.ptr + Size(L) && WriterOk(w') &&
            w'.buf[..w.ptr] == w.buf[..w.ptr] &&
            w'.buf[w.ptr + Size(L)..] == w.buf[w.ptr + Size(L)..] &&
            Matches(L, rec, w'.buf[w.ptr..w.ptr + Size(L)])
  {
    EncodeFieldWrites();
    WriteAllMatches(EncodeField, FieldMatches, L, rec, w);
  }

  /** One field whose chunk lies in the buffer and matches v decodes to v
      (to the destination for a Skip) and advances by its width. */
  lemma {:induction false} DecodeFieldMatches(k: Kind, v: Value, d: Value, r: Reader)
    requires r.present && r.ptr + Width(k) <= |r.data|
    requires FieldMatches(k, v, r.data[r.ptr..r.ptr + Width(k)])
    ensures DecodeField(k, d, r) == (if k.Skip? then d else v, r.(ptr := r.ptr + Width(k)))
  {
  }

  lemma {:induction false} DecodeFieldReads()
    ensures ReadsFields(DecodeField, FieldMatches)
  {
    forall k: Kind, v: Value, d: Value, r: Reader | r.present && r.ptr + Width(k) <= |r.data| && FieldMatches(k, v, Chunk(r, k))
      ensures DecodeField(k, d, r) == (if k.Skip? then d else v, r.(ptr := r.ptr + Width(k)))
    {
      DecodeFieldMatches(k, v, d, r);
    }
  }

  /** Decoding bytes that match rec, when they all lie inside the buffer,
      yields rec (and the destination at Skip slots) and advances the
      position by exactly Size(L). */
  lemma {:induction false} DecodeMatches(L: Layout, rec: Record, dest: Record, r: Reader)
    requires |rec| == |L| && |dest| == |L|
    requires r.present && r.ptr + Size(L) <= |r.data|
    requires Matches(L, rec, r.data[r.ptr..r.ptr + Size(L)])
    ensures DecodeFields(L, dest, r) == (Merge(L, rec, dest), r.(ptr := r.ptr + Size(L)))
  {
    DecodeFieldReads();
    ReadAllMatches(DecodeField, FieldMatches, L, rec, dest, r);
  }

  /** What the Save layout Ls writes for a well-formed record matches the
      record under any Load layout Ll that equals Ls or skips some of its
      fields. */
  lemma {:induction false} EncodeMatchesCoarse(Ls: Layout, Ll: Layout, rec: Record, w: Writer)
    requires WriterOk(w) && WellFormed(Ls, rec) && CanWrite(w, Size(Ls)) && Coarsens(Ll, Ls)
    ensures Size(Ll) == Size(Ls)
    ensures Matches(Ll, rec, EncodeFields(Ls, rec, w).buf[w.ptr..w.ptr + Size(Ls)])
  {
    EncodeMatches(Ls, rec, w);
    CoarsenMatches(Ll, Ls, rec, EncodeFields(Ls, rec, w).buf[w.ptr..w.ptr + Size(Ls)]);
    CoarsensSize(Ll, Ls);
  }

  /** Truncation tolerance: once fewer than a field's width remain (or no
      buffer was obtained), every later read fails the same way, so each
      integer field of the record reads as 0, each byte array keeps its old
      contents, and only skips move the position. */
  lemma {:induction false} DecodeExhausted(L: Layout, dest: Record, r: Reader)
    requires |dest| == |L|
    requires !r.present || r.ptr >= |r.data|
    requires forall i :: 0 <= i < |L| ==> Width(L[i].kind) > 0
    ensures var (rec, r') := DecodeFields(L, dest, r);
            r'.ptr == r.ptr + SkippedBytes(L) &&
            forall i :: 0 <= i < |L| ==>
              rec[i] == (if IsNumeric(L[i].kind) then Num(0)
                         else if L[i].kind.Bytes? then Blob(DestBytes(dest[i]))
                         else dest[i])
    decreases |L|
  {
    if |L| > 0 {
      var (v, r1) := DecodeField(L[0].kind, dest[0], r);
      assert !r1.present || r1.ptr >= |r1.data|;
      assert forall i :: 0 <= i < |L[1..]| ==> Width(L[1..][i].kind) > 0 by {
        forall i | 0 <= i < |L[1..]| ensures Width(L[1..][i].kind) > 0 {
          assert L[1..][i] == L[i + 1];
        }
      }
      DecodeExhausted(L[1..], dest[1..], r1);
      var (vs, r2) := DecodeFields(L[1..], dest[1..], r1);
      forall i | 1 <= i < |L|
        ensures ([v] + vs)[i] == (if IsNumeric(L[i].kind) then Num(0)
                                  else if L[i].kind.Bytes? then Blob(DestBytes(dest[i]))
                                  else dest[i])
      {
        assert ([v] + vs)[i] == vs[i - 1] && L[1..][i - 1] == L[i] && dest[1..][i - 1] == dest[i];
      }
    }
  }

  /** Total width of the Skip fields of a layout. */
  function SkippedBytes(L: Layout): nat
    decreases |L|
  {
    if |L| == 0 then 0 else (if L[0].kind.Skip? then L[0].kind.n else 0) + SkippedBytes(L[1..])
  }

  /** Whatever the bytes, decoding into a well-formed destination yields a
      well-formed record: numbers fit their widths, bools are 0 or 1, and
      byte arrays keep their length. */
  lemma {:induction false} DecodeWellFormed(L: Layout, dest: Record, r: Reader)
    requires WellFormed(L, dest)
    ensures WellFormed(L, DecodeFields(L, dest, r).0)
    decreases |L|
  {
    if |L| > 0 {
      WellFormedTail(L, dest);
      var (v, r1) := DecodeField(L[0].kind, dest[0], r);
      if IsNumeric(L[0].kind) && !IsBool(L[0].kind) {
        var (x, _) := ReadNum(r, OrderOf(L[0].kind), Width(L[0].kind));
        assert v == Num(x);
      }
      DecodeWellFormed(L[1..], dest[1..], r1);
      var (vs, r2) := DecodeFields(L[1..], dest[1..], r1);
      assert DecodeFields(L, dest, r).0 == [v] + vs;
      forall i | 0 <= i < |L| ensures Fits(L[i].kind, ([v] + vs)[i]) {
        if i > 0 {
          assert ([v] + vs)[i] == vs[i - 1] && L[1..][i - 1] == L[i];
        }
      }
    }
  }

  /** Decoding over a record's own slots keeps them at Skip slots, so the
      merge of a record with itself is the record. */
  lemma {:induction false} MergeSelf(L: Layout, rec: Record)
    requires |rec| == |L|
    ensures Merge(L, rec, rec) == rec
  {
  }

  /** Decoding the same bytes twice into a slot leaves what one decode left. */
  lemma {:induction false} MergeTwice(L: Layout, rec: Record, dest: Record)
    requires |rec| == |L| && |dest| == |L|
    ensures Merge(L, rec, Merge(L, rec, dest)) == Merge(L, rec, dest)
  {
  }

  lemma {:induction false} WellFormedConcat(A: Layout, B: Layout, ra: Record, rb: Record)
    requires WellFormed(A, ra) && WellFormed(B, rb)
    ensures WellFormed(A + B, ra + rb)
  {
    forall i | 0 <= i < |A + B| ensures Fits((A + B)[i].kind, (ra + rb)[i]) {
      if i < |A| {
        assert (A + B)[i] == A[i] && (ra + rb)[i] == ra[i];
      } else {
        assert (A + B)[i] == B[i - |A|] && (ra + rb)[i] == rb[i - |A|];
      }
    }
  }

  /** Every call of the layout moves a value (no skip). */
  predicate NoSkip(L: Layout)
  {
    forall i :: 0 <= i < |L| ==> !L[i].kind.Skip?
  }

  /** Without skips, decoding leaves nothing of the destination. */
  lemma {:induction false} MergeNoSkip(L: Layout, rec: Record, dest: Record)
    requires |rec| == |L| && |dest| == |L| && NoSkip(L)
    ensures Merge(L, rec, dest) == rec
  {
  }

  /** Field k of a matching chunk sits after the fields before it: its
      bytes are those at offset Size(L[..k]). */
  lemma {:induction false} MatchesWithAt(fm: FieldCheck, L: Layout, rec: Record, bs: seq<byte>, k: nat)
    requires |rec| == |L| && k < |L| && MatchesWith(fm, L, rec, bs)
    ensures Size(L[..k]) + Width(L[k].kind) <= |bs|
    ensures fm(L[k].kind, rec[k], bs[Size(L[..k])..Size(L[..k]) + Width(L[k].kind)])
    decreases k
  {
    var w := Width(L[0].kind);
    if k == 0 {
      assert L[..k] == [];
      assert bs[0..w] == bs[..w];
    } else {
      MatchesWithAt(fm, L[1..], rec[1..], bs[w..], k - 1);
      assert L[..k][0] == L[0] && L[..k][1..] == L[1..][..k - 1];
      var o := Size(L[1..][..k - 1]);
      assert bs[w..][o..o + Width(L[k].kind)] == bs[w + o..w + o + Width(L[k].kind)];
    }
  }

  lemma {:induction false} MatchesAt(L: Layout, rec: Record, bs: seq<byte>, k: nat)
    requires |rec| == |L| && k < |L| && Matches(L, rec, bs)
    ensures Size(L[..k]) + Width(L[k].kind) <= |bs|
    ensures FieldMatches(L[k].kind, rec[k], bs[Size(L[..k])..Size(L[..k]) + Width(L[k].kind)])
  {
    MatchesWithAt(FieldMatches, L, rec, bs, k);
  }

  /** Without skips the position never passes the writable length: each
      write either fits or is dropped. */
  lemma {:induction false} WriteAllStaysIn(L: Layout, rec: Record, w: Writer)
    requires |rec| == |L| && NoSkip(L) && WriterOk(w) && w.ptr <= w.cap
    ensures WriteAll(EncodeField, L, rec, w).ptr <= w.cap
    decreases |L|
  {
    if |L| > 0 {
      var w1 := EncodeField(L[0].kind, rec[0], w);
      assert NoSkip(L[1..]) by {
        forall i | 0 <= i < |L[1..]| ensures !L[1..][i].kind.Skip? {
          assert L[1..][i] == L[i + 1];
        }
      }
      WriteAllStaysIn(L[1..], rec[1..], w1);
    }
  }

  lemma {:induction false} EncodeStaysIn(L: Layout, rec: Record, w: Writer)
    requires |rec| == |L| && NoSkip(L) && WriterOk(w) && w.ptr <= w.cap
    ensures EncodeFields(L, rec, w).ptr <= w.cap
  {
    WriteAllStaysIn(L, rec, w);
  }

  /** The prefix of a joined layout that ends inside its second part. */
  lemma {:induction false} PrefixSize(A: Layout, B: Layout, j: nat)
    requires j <= |B|
    ensures Size((A + B)[..|A| + j]) == Size(A) + Size(B[..j])
  {
    assert (A + B)[..|A| + j] == A + B[..j];
    SizeConcat(A, B[..j]);
  }

  /** A U8 field is written as one byte, at offset Size(L[..k]) of the
      record, holding the field's value. */
  lemma {:induction false} EncodedByte(L: Layout, rec: Record, w: Writer, k: nat)
    requires WriterOk(w) && WellFormed(L, rec) && CanWrite(w, Size(L))
    requires k < |L| && L[k].kind.U8?
    ensures var b := EncodeFields(L, rec, w).buf;
            w.ptr + Size(L[..k]) < |b| && b[w.ptr + Size(L[..k])] as nat == NumOf(rec[k])
  {
    EncodeMatches(L, rec, w);
    var bs := EncodeFields(L, rec, w).buf[w.ptr..w.ptr + Size(L)];
    MatchesAt(L, rec, bs, k);
    var o := Size(L[..k]);
    assert bs[o..o + 1] == [bs[o]];
  }

  // ---------------------------------------------------------------------
  // The cursor loops

  method LoadField(file: LoadHelper, k: Kind, dest: Value) returns (v: Value)
    modifies file
    ensures (v, file.State()) == DecodeField(k, dest, old(file.State()))
  {
    match k
    case Skip(n) =>
      file.Skip(n);
      v := dest;
    case Bytes(n) =>
      var b := file.NextBytes(n, DestBytes(dest));
      v := Blob(b);
    case Bool8 =>
      var b := file.NextBool8();
      v := Num(if b then 1 else 0);
    case Bool32 =>
      var b := file.NextBool32();
      v := Num(if b then 1 else 0);
    case _ =>
      var x := file.Next(OrderOf(k), Width(k));
      v := Num(Interpret(k, x));
  }

  /** Runs a Load function's cursor calls in order, writing each slot. */
  method LoadFields(file: LoadHelper, L: Layout, dest: Record) returns (rec: Record)
    requires |dest| == |L|
    modifies file
    ensures (rec, file.State()) == DecodeFields(L, dest, old(file.State()))
  {
    rec := [];
    var i := 0;
    while i < |L|
      invariant 0 <= i <= |L|
      invariant (rec, file.State()) == DecodeFields(L[..i], dest[..i], old(file.State()))
    {
      ghost var before := file.State();
      var v := LoadField(file, L[i].kind, dest[i]);
      DecodeConcat(L[..i], [L[i]], dest[..i], [dest[i]], old(file.State()));
      assert L[..i + 1] == L[..i] + [L[i]] && dest[..i + 1] == dest[..i] + [dest[i]];
      DecodeSingle(L[i], dest[i], before);
      rec := rec + [v];
      i := i + 1;
    }
    assert L[..i] == L && dest[..i] == dest;
  }

  method SaveField(file: SaveHelper, k: Kind, v: Value)
    requires file.Valid()
    modifies file, file.buffer
    ensures file.Valid() && file.buffer == old(file.buffer)
    ensures file.State() == EncodeField(k, v, old(file.State()))
  {
    if k.Skip? {
      file.Skip(k.n);
    } else {
      file.WriteBytes(FieldBytes(k, v));
    }
  }

  /** Runs a Save function's cursor calls in order. */
  method SaveFields(file: SaveHelper, L: Layout, rec: Record)
    requires file.Valid() && |rec| == |L|
    modifies file, file.buffer
    ensures file.Valid() && file.buffer == old(file.buffer)
    ensures file.State() == EncodeFields(L, rec, old(file.State()))
  {
    var i := 0;
    while i < |L|
      invariant 0 <= i <= |L|
      invariant file.Valid() && file.buffer == old(file.buffer)
      invariant file.State() == EncodeFields(L[..i], rec[..i], old(file.State()))
    {
      ghost var before := file.State();
      SaveField(file, L[i].kind, rec[i]);
      EncodeConcat(L[..i], [L[i]], rec[..i], [rec[i]], old(file.State()));
      assert L[..i + 1] == L[..i] + [L[i]] && rec[..i + 1] == rec[..i] + [rec[i]];
      EncodeSingle(L[i], rec[i], before);
      i := i + 1;
    }
    assert L[..i] == L && rec[..i] == rec;
  }
}

/**
 The ELF64 PT_LOAD fingerprint of write-build-manifest.py, up to SHA-256: what
 is proved is about the byte string that is hashed. Field positions follow the
 System V gABI, chapter 4 "ELF Header" and chapter 5 "Program Header".
 */
module ElfFingerprint {
  import opened Wrappers
  import opened Checksum

  const MAX_NATIVE_BYTES := 512 * 1024 * 1024
  const MAX_PROGRAM_HEADERS := 1024
  const MAX_LOAD_SEGMENTS := 64
  const CHUNK_BYTES := 1024 * 1024
  const PT_LOAD := 1
  const TAG := "TinyPaws-ELF64-PT_LOAD-v1"

  datatype Error = SizeBound | NotElf64 | BadTable | OutOfRange | Truncated | BadSegmentRange | BadAlignment | BadLoadCount

  // ------------------------------------------------------------- reading

  function Reverse(s: seq<byte>): (r: seq<byte>)
    ensures |r| == |s|
  {
    if s == [] then [] else Reverse(s[1..]) + [s[0]]
  }

  /** An unsigned field in the file's byte order. */
  function Field(b: seq<byte>, big: bool): nat { Decode(if big then Reverse(b) else b) }

  lemma FieldBound(b: seq<byte>, big: bool)
    ensures Field(b, big) < Pow256(|b|)
  {
    EncodeDecode(if big then Reverse(b) else b);
  }

  function ReadAt(data: seq<byte>, offset: nat, count: nat, size: nat): Result<seq<byte>, Error> {
    if offset + count > size then Err(OutOfRange)
    else if offset + count > |data| && count > 0 then Err(Truncated)
    else Ok(if count == 0 then [] else data[offset..offset + count])
  }

  datatype Segment = Segment(
    kind: nat, flags: nat, offset: nat, vaddr: nat, paddr: nat, filesz: nat, memsz: nat, align: nat)
  {
    predicate Bounded() {
      && kind < U32 && flags < U32
      && offset < U64 && vaddr < U64 && paddr < U64 && filesz < U64 && memsz < U64 && align < U64
    }
  }

  function SegmentAt(table: seq<byte>, index: nat, big: bool): (s: Segment)
    requires 56 * index + 56 <= |table|
    ensures s.Bounded()
  {
    var b := table[56 * index..56 * index + 56];
    Widths();
    FieldBound(b[0..4], big);
    FieldBound(b[4..8], big);
    FieldBound(b[8..16], big);
    FieldBound(b[16..24], big);
    FieldBound(b[24..32], big);
    FieldBound(b[32..40], big);
    FieldBound(b[40..48], big);
    FieldBound(b[48..56], big);
    Segment(Field(b[0..4], big), Field(b[4..8], big), Field(b[8..16], big), Field(b[16..24], big),
            Field(b[24..32], big), Field(b[32..40], big), Field(b[40..48], big), Field(b[48..56], big))
  }

  predicate PowerOfTwo(n: nat) { n == 1 || (n > 1 && n % 2 == 0 && PowerOfTwo(n / 2)) }

  predicate Aligned(s: Segment) {
    s.align > 1 ==> PowerOfTwo(s.align) && (s.vaddr - s.offset) % s.align == 0
  }

  /** The PT_LOAD entries among the first n, in table order, or the first thing wrong with one. */
  function Loads(table: seq<byte>, n: nat, big: bool, size: nat): (r: Result<seq<Segment>, Error>)
    requires 56 * n <= |table|
    ensures r.Err? ==> r.error.BadSegmentRange? || r.error.BadAlignment?
  {
    if n == 0 then Ok([])
    else
      var before := Loads(table, n - 1, big, size);
      var s := SegmentAt(table, n - 1, big);
      if before.Err? || s.kind != PT_LOAD then before
      else if s.filesz > s.memsz || s.offset + s.filesz > size then Err(BadSegmentRange)
      else if !Aligned(s) then Err(BadAlignment)
      else Ok(before.value + [s])
  }

  function TotalBytes(loads: seq<Segment>): nat {
    if loads == [] then 0 else TotalBytes(loads[..|loads| - 1]) + loads[|loads| - 1].filesz
  }

  datatype Parsed = Parsed(header: seq<byte>, loads: seq<Segment>)

  predicate IsElf64(header: seq<byte>)
    requires |header| == 64
  {
    header[..4] == [0x7f, 0x45, 0x4c, 0x46] && header[4] == 2 && (header[5] == 1 || header[5] == 2) && header[6] == 1
  }

  /** Everything elf_load_fingerprint checks before it hashes, in its order. */
  function ParseElf(data: seq<byte>, size: nat): Result<Parsed, Error> {
    if !(64 <= size <= MAX_NATIVE_BYTES) then Err(SizeBound)
    else
      var header := ReadAt(data, 0, 64, size);
      if header.Err? then Err(header.error)
      else if !IsElf64(header.value) then Err(NotElf64)
      else
        var h, big := header.value, header.value[5] == 2;
        var phnum := Field(h[56..58], big);
        if Field(h[52..54], big) != 64 || Field(h[54..56], big) != 56 || !(1 <= phnum <= MAX_PROGRAM_HEADERS)
        then Err(BadTable)
        else
          var table := ReadAt(data, Field(h[32..40], big), 56 * phnum, size);
          if table.Err? then Err(table.error)
          else
            var loads := Loads(table.value, phnum, big, size);
            if loads.Err? then Err(loads.error)
            else if !(1 <= |loads.value| <= MAX_LOAD_SEGMENTS) || TotalBytes(loads.value) > MAX_NATIVE_BYTES
            then Err(BadLoadCount)
            else Ok(Parsed(h, loads.value))
  }

  // ------------------------------------------------------- normalization

  /** The section-table fields of the ELF header, which stripping may rewrite. */
  predicate SectionField(at: nat) { 40 <= at < 48 || 58 <= at < 64 }

  /** `value` found at file offset `offset`, with every section-table byte zeroed. */
  function Normalize(value: seq<byte>, offset: nat): (r: seq<byte>)
    ensures |r| == |value|
  {
    seq(|value|, i requires 0 <= i < |value| => if SectionField(offset + i) then 0 else value[i])
  }

  /** Chunk boundaries do not matter. */
  lemma NormalizeConcat(a: seq<byte>, b: seq<byte>, offset: nat)
    ensures Normalize(a + b, offset) == Normalize(a, offset) + Normalize(b, offset + |a|)
  {
  }

  // ------------------------------------------------------------- preimage

  function Ascii(s: string): seq<byte> {
    seq(|s|, i requires 0 <= i < |s| => s[i] as int % 256)
  }

  function EntryBytes(s: Segment): (b: seq<byte>)
    ensures |b| == 56
  {
    Encode(s.kind, 4) + Encode(s.flags, 4) + Encode(s.offset, 8) + Encode(s.vaddr, 8) + Encode(s.paddr, 8)
    + Encode(s.filesz, 8) + Encode(s.memsz, 8) + Encode(s.align, 8)
  }

  predicate Covers(data: seq<byte>, s: Segment) { s.filesz > 0 ==> s.offset + s.filesz <= |data| }

  predicate CoversAll(data: seq<byte>, loads: seq<Segment>) {
    forall i :: 0 <= i < |loads| ==> Covers(data, loads[i])
  }

  /** The loaded file bytes of a segment, normalized. */
  function Loaded(data: seq<byte>, s: Segment): (b: seq<byte>)
    requires Covers(data, s)
    ensures |b| == s.filesz
  {
    if s.filesz == 0 then [] else Normalize(data[s.offset..s.offset + s.filesz], s.offset)
  }

  function Body(data: seq<byte>, loads: seq<Segment>): seq<byte>
    requires CoversAll(data, loads)
  {
    if loads == [] then []
    else
      var last := loads[|loads| - 1];
      Body(data, loads[..|loads| - 1]) + Piece(data, last)
  }

  /** One segment as hashed: its entry, then its bytes. */
  function Piece(data: seq<byte>, s: Segment): (b: seq<byte>)
    requires Covers(data, s)
    ensures |b| == 56 + s.filesz
  {
    EntryBytes(s) + Loaded(data, s)
  }

  function Preimage(data: seq<byte>, p: Parsed): seq<byte>
    requires CoversAll(data, p.loads)
  {
    Ascii(TAG) + [0] + Normalize(p.header, 0) + Encode(|p.loads|, 4) + Body(data, p.loads)
  }

  /** What is hashed for an accepted file, its segment count and its loaded size. */
  function Fingerprint(data: seq<byte>, size: nat): Result<(seq<byte>, nat, nat), Error> {
    var p := ParseElf(data, size);
    if p.Err? then Err(p.error)
    else if !CoversAll(data, p.value.loads) then Err(Truncated)
    else Ok((Preimage(data, p.value), |p.value.loads|, TotalBytes(p.value.loads)))
  }

  // ------------------------------------------------------- unique decoding

  lemma SplitBoth<T>(a: seq<T>, b: seq<T>, c: seq<T>, d: seq<T>)
    requires a + b == c + d && |a| == |c|
    ensures a == c && b == d
  {
    assert a == (a + b)[..|a|] && b == (a + b)[|a|..];
    assert c == (c + d)[..|c|] && d == (c + d)[|c|..];
  }

  lemma EncodeInjective(m: nat, n: nat, k: nat)
    requires m < Pow256(k) && n < Pow256(k) && Encode(m, k) == Encode(n, k)
    ensures m == n
  {
    DecodeEncode(m, k);
    DecodeEncode(n, k);
  }

  /** A program header entry is recoverable from its 56 bytes. */
  lemma EntryInjective(s: Segment, t: Segment)
    requires s.Bounded() && t.Bounded() && EntryBytes(s) == EntryBytes(t)
    ensures s == t
  {
    var a, b := EntryBytes(s), EntryBytes(t);
    Widths();
    hide Encode, Pow256;
    assert Encode(s.kind, 4) == a[0..4] == b[0..4] == Encode(t.kind, 4);
    assert Encode(s.flags, 4) == a[4..8] == b[4..8] == Encode(t.flags, 4);
    assert Encode(s.offset, 8) == a[8..16] == b[8..16] == Encode(t.offset, 8);
    assert Encode(s.vaddr, 8) == a[16..24] == b[16..24] == Encode(t.vaddr, 8);
    assert Encode(s.paddr, 8) == a[24..32] == b[24..32] == Encode(t.paddr, 8);
    assert Encode(s.filesz, 8) == a[32..40] == b[32..40] == Encode(t.filesz, 8);
    assert Encode(s.memsz, 8) == a[40..48] == b[40..48] == Encode(t.memsz, 8);
    assert Encode(s.align, 8) == a[48..56] == b[48..56] == Encode(t.align, 8);
    EncodeInjective(s.kind, t.kind, 4);
    EncodeInjective(s.flags, t.flags, 4);
    EncodeInjective(s.offset, t.offset, 8);
    EncodeInjective(s.vaddr, t.vaddr, 8);
    EncodeInjective(s.paddr, t.paddr, 8);
    EncodeInjective(s.filesz, t.filesz, 8);
    EncodeInjective(s.memsz, t.memsz, 8);
    EncodeInjective(s.align, t.align, 8);
  }

  ghost predicate AllBounded(loads: seq<Segment>) {
    forall i :: 0 <= i < |loads| ==> loads[i].Bounded()
  }

  /** Same entries in the same order, with the same normalized loaded bytes. */
  ghost predicate SameLoads(d: seq<byte>, ls: seq<Segment>, e: seq<byte>, ms: seq<Segment>)
    requires CoversAll(d, ls) && CoversAll(e, ms)
  {
    ls == ms && forall i :: 0 <= i < |ls| ==> Loaded(d, ls[i]) == Loaded(e, ms[i])
  }

  /** The body read from its front. */
  lemma {:induction false} BodyFront(data: seq<byte>, loads: seq<Segment>)
    requires loads != [] && CoversAll(data, loads)
    ensures Body(data, loads) == Piece(data, loads[0]) + Body(data, loads[1..])
  {
    hide Piece, Covers;
    if |loads| == 1 {
      assert loads[..0] == [] && loads[1..] == [];
    } else {
      var init, rest, last := loads[..|loads| - 1], loads[1..], loads[|loads| - 1];
      BodyFront(data, init);
      assert rest[..|rest| - 1] == init[1..] && rest[|rest| - 1] == last;
      assert Body(data, rest) == Body(data, init[1..]) + Piece(data, last);
      assert Body(data, loads) == Body(data, init) + Piece(data, last);
    }
  }

  lemma {:induction false} BodyInjective(d: seq<byte>, ls: seq<Segment>, e: seq<byte>, ms: seq<Segment>)
    requires CoversAll(d, ls) && CoversAll(e, ms) && AllBounded(ls) && AllBounded(ms)
    requires |ls| == |ms| && Body(d, ls) == Body(e, ms)
    ensures SameLoads(d, ls, e, ms)
    decreases |ls|
  {
    hide EntryBytes, Loaded, Body;
    if ls != [] {
      BodyFront(d, ls);
      BodyFront(e, ms);
      var restD, restE := Loaded(d, ls[0]) + Body(d, ls[1..]), Loaded(e, ms[0]) + Body(e, ms[1..]);
      assert Body(d, ls) == EntryBytes(ls[0]) + restD && Body(e, ms) == EntryBytes(ms[0]) + restE;
      SplitBoth(EntryBytes(ls[0]), restD, EntryBytes(ms[0]), restE);
      EntryInjective(ls[0], ms[0]);
      SplitBoth(Loaded(d, ls[0]), Body(d, ls[1..]), Loaded(e, ms[0]), Body(e, ms[1..]));
      BodyInjective(d, ls[1..], e, ms[1..]);
      assert ls == [ls[0]] + ls[1..] && ms == [ms[0]] + ms[1..];
      forall i | 0 < i < |ls| ensures Loaded(d, ls[i]) == Loaded(e, ms[i]) {
        assert ls[i] == ls[1..][i - 1] && ms[i] == ms[1..][i - 1];
      }
    }
  }

  lemma {:induction false} BodySame(d: seq<byte>, ls: seq<Segment>, e: seq<byte>)
    requires CoversAll(d, ls) && CoversAll(e, ls) && SameLoads(d, ls, e, ls)
    ensures Body(d, ls) == Body(e, ls)
  {
    if ls != [] {
      BodySame(d, ls[..|ls| - 1], e);
    }
  }

  lemma {:induction false} LoadsBounded(table: seq<byte>, n: nat, big: bool, size: nat)
    requires 56 * n <= |table|
    ensures Loads(table, n, big, size).Ok? ==>
              AllBounded(Loads(table, n, big, size).value) && |Loads(table, n, big, size).value| <= n
  {
    hide Aligned;
    if n > 0 {
      LoadsBounded(table, n - 1, big, size);
    }
  }

  lemma ParsedBounded(data: seq<byte>, size: nat)
    requires ParseElf(data, size).Ok?
    ensures var p := ParseElf(data, size).value;
            |p.header| == 64 && AllBounded(p.loads) && 1 <= |p.loads| <= MAX_LOAD_SEGMENTS
  {
    hide Field, Loads, IsElf64, TotalBytes;
    var h := ReadAt(data, 0, 64, size).value;
    var big := h[5] == 2;
    var phnum := Field(h[56..58], big);
    LoadsBounded(ReadAt(data, Field(h[32..40], big), 56 * phnum, size).value, phnum, big, size);
  }

  ghost predicate SameParsed(d: seq<byte>, p: Parsed, e: seq<byte>, q: Parsed)
    requires CoversAll(d, p.loads) && CoversAll(e, q.loads)
  {
    Normalize(p.header, 0) == Normalize(q.header, 0) && SameLoads(d, p.loads, e, q.loads)
  }

  lemma PreimageSplits(d: seq<byte>, p: Parsed, e: seq<byte>, q: Parsed)
    requires CoversAll(d, p.loads) && CoversAll(e, q.loads) && |p.header| == |q.header|
    requires Preimage(d, p) == Preimage(e, q)
    ensures Normalize(p.header, 0) == Normalize(q.header, 0)
    ensures Encode(|p.loads|, 4) == Encode(|q.loads|, 4) && Body(d, p.loads) == Body(e, q.loads)
  {
    hide Body, Normalize, Encode, Covers, CoversAll;
    var tag := Ascii(TAG) + [0];
    var x, y := Encode(|p.loads|, 4) + Body(d, p.loads), Encode(|q.loads|, 4) + Body(e, q.loads);
    assert Preimage(d, p) == tag + (Normalize(p.header, 0) + x);
    assert Preimage(e, q) == tag + (Normalize(q.header, 0) + y);
    SplitBoth(tag, Normalize(p.header, 0) + x, tag, Normalize(q.header, 0) + y);
    SplitBoth(Normalize(p.header, 0), x, Normalize(q.header, 0), y);
    SplitBoth(Encode(|p.loads|, 4), Body(d, p.loads), Encode(|q.loads|, 4), Body(e, q.loads));
  }

  lemma PreimageDecodes(d: seq<byte>, p: Parsed, e: seq<byte>, q: Parsed)
    requires CoversAll(d, p.loads) && CoversAll(e, q.loads) && |p.header| == |q.header|
    requires AllBounded(p.loads) && AllBounded(q.loads) && |p.loads| <= MAX_LOAD_SEGMENTS && |q.loads| <= MAX_LOAD_SEGMENTS
    ensures Preimage(d, p) == Preimage(e, q) <==> SameParsed(d, p, e, q)
  {
    if Preimage(d, p) == Preimage(e, q) {
      hide Preimage, Body, Normalize, Encode, CoversAll, AllBounded, SameLoads;
      PreimageSplits(d, p, e, q);
      Widths();
      EncodeInjective(|p.loads|, |q.loads|, 4);
      BodyInjective(d, p.loads, e, q.loads);
    }
    if SameParsed(d, p, e, q) {
      hide Body, Normalize, Encode, AllBounded;
      BodySame(d, p.loads, e);
    }
  }

  /**
   The preimage is uniquely decodable: two accepted files hash the same bytes
   exactly when their normalized headers, their PT_LOAD entries in order and
   their normalized loaded bytes are equal.
   */
  lemma EqualPreimagesIff(d: seq<byte>, m: nat, e: seq<byte>, n: nat)
    requires Fingerprint(d, m).Ok? && Fingerprint(e, n).Ok?
    ensures Fingerprint(d, m).value.0 == Fingerprint(e, n).value.0 <==>
            SameParsed(d, ParseElf(d, m).value, e, ParseElf(e, n).value)
  {
    ParsedBounded(d, m);
    ParsedBounded(e, n);
    hide ParseElf, Preimage, SameParsed, AllBounded, CoversAll;
    PreimageDecodes(d, ParseElf(d, m).value, e, ParseElf(e, n).value);
  }

  // -------------------------------------------- what stripping may change

  /** The bytes agree wherever they are not section-table fields. */
  predicate SameButSections(a: seq<byte>, b: seq<byte>, offset: nat) {
    |a| == |b| && forall i :: 0 <= i < |a| && !SectionField(offset + i) ==> a[i] == b[i]
  }

  lemma NormalizedIff(a: seq<byte>, b: seq<byte>, offset: nat)
    ensures Normalize(a, offset) == Normalize(b, offset) <==> SameButSections(a, b, offset)
  {
    if Normalize(a, offset) == Normalize(b, offset) {
      forall i | 0 <= i < |a| && !SectionField(offset + i) ensures a[i] == b[i] {
        assert Normalize(a, offset)[i] == Normalize(b, offset)[i];
      }
    }
  }

  lemma {:induction false} LoadsAgree(table: seq<byte>, n: nat, big: bool, m: nat, k: nat)
    requires 56 * n <= |table| && Loads(table, n, big, m).Ok? && Loads(table, n, big, k).Ok?
    ensures Loads(table, n, big, m) == Loads(table, n, big, k)
  {
    hide Aligned;
    if n > 0 {
      LoadsAgree(table, n - 1, big, m, k);
    }
  }

  function Table(data: seq<byte>, size: nat, h: seq<byte>): Result<seq<byte>, Error>
    requires |h| == 64
  {
    ReadAt(data, Field(h[32..40], h[5] == 2), 56 * Field(h[56..58], h[5] == 2), size)
  }

  /** Two accepted files with the same header up to section fields and the same program headers have the same loads. */
  lemma SameTableSameLoads(d: seq<byte>, m: nat, e: seq<byte>, n: nat)
    requires ParseElf(d, m).Ok? && ParseElf(e, n).Ok?
    requires SameButSections(d[..64], e[..64], 0) && Table(d, m, d[..64]) == Table(e, n, e[..64])
    ensures ParseElf(d, m).value.loads == ParseElf(e, n).value.loads
    ensures Normalize(ParseElf(d, m).value.header, 0) == Normalize(ParseElf(e, n).value.header, 0)
  {
    hide Field, Loads, IsElf64, TotalBytes, Normalize;
    var h, k := d[..64], e[..64];
    NormalizedIff(h, k, 0);
    assert h[32..40] == k[32..40] && h[56..58] == k[56..58] && h[5] == k[5];
    var big := h[5] == 2;
    LoadsAgree(Table(d, m, h).value, Field(h[56..58], big), big, m, n);
  }

  /**
   Stripping is invisible: a file whose header differs only in section-table
   fields, whose program headers are the same and whose loaded bytes are the
   same up to those fields has the same fingerprint, whatever else changed.
   */
  lemma StrippingIsInvisible(d: seq<byte>, m: nat, e: seq<byte>, n: nat)
    requires Fingerprint(d, m).Ok? && Fingerprint(e, n).Ok?
    requires SameButSections(d[..64], e[..64], 0) && Table(d, m, d[..64]) == Table(e, n, e[..64])
    requires forall s :: s in ParseElf(d, m).value.loads && s.filesz > 0 ==>
               s.offset + s.filesz <= |d| && s.offset + s.filesz <= |e|
               && SameButSections(d[s.offset..s.offset + s.filesz], e[s.offset..s.offset + s.filesz], s.offset)
    ensures Fingerprint(d, m) == Fingerprint(e, n)
  {
    SameTableSameLoads(d, m, e, n);
    hide ParseElf, Normalize, Table, Preimage;
    EqualPreimagesIff(d, m, e, n);
    var ls := ParseElf(d, m).value.loads;
    forall i | 0 <= i < |ls| ensures Loaded(d, ls[i]) == Loaded(e, ls[i]) {
      SameLoadedBytes(d, e, ls[i]);
    }
  }

  lemma SameLoadedBytes(d: seq<byte>, e: seq<byte>, s: Segment)
    requires Covers(d, s) && Covers(e, s)
    requires s.filesz > 0 ==> SameButSections(d[s.offset..s.offset + s.filesz], e[s.offset..s.offset + s.filesz], s.offset)
    ensures Loaded(d, s) == Loaded(e, s)
  {
    if s.filesz > 0 {
      NormalizedIff(d[s.offset..s.offset + s.filesz], e[s.offset..s.offset + s.filesz], s.offset);
    }
  }

  lemma DifferentLoadedBytes(d: seq<byte>, e: seq<byte>, s: Segment, at: nat)
    requires Covers(d, s) && Covers(e, s) && s.offset <= at < s.offset + s.filesz
    requires d[at] != e[at] && !SectionField(at)
    ensures Loaded(d, s) != Loaded(e, s)
  {
    var a, b := d[s.offset..s.offset + s.filesz], e[s.offset..s.offset + s.filesz];
    assert a[at - s.offset] == d[at] && b[at - s.offset] == e[at];
    NormalizedIff(a, b, s.offset);
  }

  /** Any other change of a loaded byte is visible. */
  lemma LoadedChangeIsVisible(d: seq<byte>, m: nat, e: seq<byte>, n: nat, i: nat, at: nat)
    requires Fingerprint(d, m).Ok? && Fingerprint(e, n).Ok? && i < |ParseElf(d, m).value.loads|
    requires var s := ParseElf(d, m).value.loads[i];
             s.offset <= at < s.offset + s.filesz && at < |d| && at < |e| && d[at] != e[at] && !SectionField(at)
    ensures Fingerprint(d, m).value.0 != Fingerprint(e, n).value.0
  {
    hide ParseElf, Loaded, Preimage;
    EqualPreimagesIff(d, m, e, n);
    var ls, ms := ParseElf(d, m).value.loads, ParseElf(e, n).value.loads;
    if ls == ms {
      assert Covers(d, ls[i]) && Covers(e, ms[i]);
      DifferentLoadedBytes(d, e, ls[i], at);
    }
  }

  // ---------------------------------------------------------------- the loops

  function Min(a: nat, b: nat): nat { if a < b then a else b }

  /** How much a read returns of what it could, given the shortfalls to come. */
  function Taken(available: nat, shortfalls: seq<nat>): nat {
    if shortfalls == [] then available
    else if shortfalls[0] < available then available - shortfalls[0] else Min(1, available)
  }

  /** The k-th read to come returns all it could. */
  predicate Full(shortfalls: seq<nat>, k: nat) {
    k < |shortfalls| ==> shortfalls[k] == 0
  }

  /** A read returns something, but anything it could; of more than one byte, everything exactly when it is full. */
  lemma AnyRead(available: nat, n: nat, shortfalls: seq<nat>, k: nat)
    requires 0 < n <= available
    ensures Taken(available, [available - n] + shortfalls) == n && 0 < Taken(available, shortfalls) <= available
    ensures available > 1 && k <= |shortfalls| ==> (Full(shortfalls, k) <==> Taken(available, shortfalls[k..]) == available)
  {
    assert ([available - n] + shortfalls)[0] == available - n;
  }

  /** A binary stream; `shortfalls` is how much each read falls short of what it could return. */
  class Stream {
    const data: seq<byte>
    var pos: nat
    var shortfalls: seq<nat>

    constructor (bytes: seq<byte>, short: seq<nat>)
      ensures data == bytes && pos == 0
    {
      data, pos, shortfalls := bytes, 0, short;
    }

    method Seek(at: nat)
      modifies this`pos
      ensures pos == at
    {
      pos := at;
    }

    /** Some non-empty prefix of what is left, or nothing at the end. */
    method Read(most: nat) returns (chunk: seq<byte>)
      modifies this
      ensures chunk == [] <==> most == 0 || old(pos) >= |data|
      ensures |chunk| <= most && pos == old(pos) + |chunk|
      ensures chunk != [] ==> pos <= |data| && chunk == data[old(pos)..pos]
      ensures chunk != [] ==> |chunk| == Taken(Min(most, |data| - old(pos)), old(shortfalls))
      ensures chunk != [] ==> shortfalls == if old(shortfalls) == [] then [] else old(shortfalls)[1..]
    {
      if most == 0 || pos >= |data| {
        return [];
      }
      var n := Taken(Min(most, |data| - pos), shortfalls);
      shortfalls := if shortfalls == [] then [] else shortfalls[1..];
      chunk := data[pos..pos + n];
      pos := pos + n;
    }
  }

  /** hashlib.sha256, as the bytes it was fed. */
  class Digest {
    var fed: seq<byte>

    constructor ()
      ensures fed == []
    {
      fed := [];
    }

    method Update(chunk: seq<byte>)
      modifies this
      ensures fed == old(fed) + chunk
    {
      fed := fed + chunk;
    }
  }

  /** stream_sha: everything that is left, or an error exactly when that exceeds the limit. */
  method StreamSha(stream: Stream, limit: nat) returns (r: Result<(seq<byte>, nat), ()>)
    requires stream.pos <= |stream.data|
    modifies stream
    ensures var rest := old(stream.data[stream.pos..]);
            r == if |rest| <= limit then Ok((rest, |rest|)) else Err(())
  {
    var digest := new Digest();
    var count := 0;
    ghost var start := stream.pos;
    while true
      invariant start <= stream.pos <= |stream.data| && count == stream.pos - start <= limit
      invariant digest.fed == stream.data[start..stream.pos]
      invariant fresh(digest)
      decreases |stream.data| - stream.pos
    {
      var chunk := stream.Read(Min(CHUNK_BYTES, limit - count + 1));
      if chunk == [] {
        assert stream.data[start..stream.pos] == stream.data[start..];
        return Ok((digest.fed, count));
      }
      count := count + |chunk|;
      if count > limit {
        return Err(());
      }
      digest.Update(chunk);
      assert stream.data[start..stream.pos] == stream.data[start..stream.pos - |chunk|] + chunk;
    }
  }

  /** _normalize_header_fields: zeroes in place the parts of the two fields that fall inside the chunk. */
  method NormalizeHeaderFields(value: seq<byte>, offset: nat) returns (result: array<byte>)
    ensures fresh(result) && result[..] == Normalize(value, offset)
  {
    result := new byte[|value|](i requires 0 <= i < |value| => value[i]);
    assert forall i :: 0 <= i < |value| ==> result[i] == value[i];
    ZeroRange(result, offset, 40, 48);
    assert forall i :: 0 <= i < |value| ==> result[i] == if 40 <= offset + i < 48 then 0 else value[i];
    ZeroRange(result, offset, 58, 64);
    assert forall i :: 0 <= i < |value| ==> result[i] == if SectionField(offset + i) then 0 else value[i];
    var target := Normalize(value, offset);
    assert forall i :: 0 <= i < |value| ==> target[i] == result[i];
  }

  method ZeroRange(result: array<byte>, offset: nat, start: nat, end: nat)
    requires start <= end
    modifies result
    ensures forall i :: 0 <= i < result.Length ==>
              result[i] == if start <= offset + i < end then 0 else old(result[i])
  {
    var left := if offset > start then offset else start;
    var right := if offset + result.Length < end then offset + result.Length else end;
    if left < right {
      for at := left to right
        invariant forall i :: 0 <= i < result.Length ==>
                    result[i] == if left <= offset + i < at then 0 else old(result[i])
      {
        result[at - offset] := 0;
      }
    }
  }

  /** Feeds one segment's bytes chunk by chunk; false is a truncated file. */
  method HashSegment(stream: Stream, digest: Digest, s: Segment) returns (ok: bool)
    modifies stream, digest
    ensures ok == Covers(stream.data, s)
    ensures ok ==> digest.fed == old(digest.fed) + Loaded(stream.data, s)
  {
    stream.Seek(s.offset);
    var offset, remaining := s.offset, s.filesz;
    while remaining > 0
      invariant offset == stream.pos == s.offset + s.filesz - remaining
      invariant 0 <= remaining <= s.filesz
      invariant remaining < s.filesz ==> offset <= |stream.data|
      invariant offset <= |stream.data| ==> digest.fed == old(digest.fed) + Normalize(stream.data[s.offset..offset], s.offset)
      invariant offset > |stream.data| ==> remaining == s.filesz && digest.fed == old(digest.fed)
    {
      var chunk := stream.Read(Min(CHUNK_BYTES, remaining));
      if chunk == [] {
        return false;
      }
      var normalized := NormalizeHeaderFields(chunk, offset);
      NormalizeConcat(stream.data[s.offset..offset], chunk, s.offset);
      assert stream.data[s.offset..offset] + chunk == stream.data[s.offset..offset + |chunk|];
      digest.Update(normalized[..]);
      offset := offset + |chunk|;
      remaining := remaining - |chunk|;
    }
    ok := true;
  }

  /** The scan of the program header table. */
  method CollectLoads(table: seq<byte>, phnum: nat, big: bool, size: nat) returns (r: Result<seq<Segment>, Error>)
    requires 56 * phnum <= |table|
    ensures r == Loads(table, phnum, big, size)
  {
    hide SegmentAt, Aligned;
    var loads: seq<Segment> := [];
    for index := 0 to phnum
      invariant Loads(table, index, big, size) == Ok(loads)
    {
      var s := SegmentAt(table, index, big);
      if s.kind == PT_LOAD {
        if s.filesz > s.memsz || s.offset + s.filesz > size {
          LoadsErr(table, index + 1, phnum, big, size);
          return Err(BadSegmentRange);
        }
        if !Aligned(s) {
          LoadsErr(table, index + 1, phnum, big, size);
          return Err(BadAlignment);
        }
        loads := loads + [s];
      }
    }
    return Ok(loads);
  }

  /** The first bad entry decides. */
  lemma {:induction false} LoadsErr(table: seq<byte>, i: nat, n: nat, big: bool, size: nat)
    requires i <= n && 56 * n <= |table| && Loads(table, i, big, size).Err?
    ensures Loads(table, n, big, size) == Loads(table, i, big, size)
    decreases n
  {
    hide SegmentAt, Aligned;
    if i < n {
      LoadsErr(table, i, n - 1, big, size);
    }
  }

  /** Found before any read, or, with the header whole, before the table is read. */
  predicate PrecedesReads(e: Error, header: bool) {
    e.SizeBound? || (header && (e.NotElf64? || e.BadTable? || e.OutOfRange?))
  }

  /** _read_at: one read, which must return everything asked for. */
  method ReadExactly(stream: Stream, offset: nat, count: nat, size: nat) returns (r: Result<seq<byte>, Error>)
    modifies stream
    ensures var all := ReadAt(stream.data, offset, count, size);
            r == if all.Ok? && Taken(count, old(stream.shortfalls)) < count then Err(Truncated) else all
    ensures r.Ok? && count > 0 ==>
              stream.shortfalls == if old(stream.shortfalls) == [] then [] else old(stream.shortfalls)[1..]
  {
    if offset + count > size {
      return Err(OutOfRange);
    }
    stream.Seek(offset);
    var value := stream.Read(count);
    if |value| != count {
      return Err(Truncated);
    }
    r := Ok(value);
  }

  /**
   elf_load_fingerprint. The header and the table are one read each and must come
   whole; then the result is Fingerprint, however the segments' reads are cut. A
   short one fails once the checks before it have passed.
   */
  method ElfLoadFingerprint(stream: Stream, size: nat) returns (r: Result<(seq<byte>, nat, nat), Error>)
    modifies stream
    ensures var s, p := old(stream.shortfalls), ParseElf(stream.data, size);
            if Full(s, 0) && Full(s, 1) then r == Fingerprint(stream.data, size)
            else if p.Err? && PrecedesReads(p.error, Full(s, 0)) then r == Err(p.error)
            else r == Err(Truncated)
  {
    hide ParseElf, CoversAll, Preimage;
    var p := ReadParsed(stream, size);
    if p.Err? {
      return Err(p.error);
    }
    r := HashLoads(stream, p.value);
  }

  /** Its checks before anything is hashed. */
  method ReadParsed(stream: Stream, size: nat) returns (r: Result<Parsed, Error>)
    modifies stream
    ensures var s, p := old(stream.shortfalls), ParseElf(stream.data, size);
            if (Full(s, 0) && Full(s, 1)) || (p.Err? && PrecedesReads(p.error, Full(s, 0))) then r == p else r == Err(Truncated)
  {
    hide Field, IsElf64, Loads, TotalBytes;
    ghost var s := stream.shortfalls;
    assert forall n: nat :: n > 1 ==> (Taken(n, s) < n <==> !Full(s, 0));
    if !(64 <= size <= MAX_NATIVE_BYTES) {
      return Err(SizeBound);
    }
    var header := ReadExactly(stream, 0, 64, size);
    if header.Err? {
      return Err(header.error);
    }
    var h := header.value;
    if !IsElf64(h) {
      return Err(NotElf64);
    }
    var big := h[5] == 2;
    var phnum := Field(h[56..58], big);
    if Field(h[52..54], big) != 64 || Field(h[54..56], big) != 56 || !(1 <= phnum <= MAX_PROGRAM_HEADERS) {
      return Err(BadTable);
    }
    var table := ReadExactly(stream, Field(h[32..40], big), 56 * phnum, size);
    if table.Err? {
      return Err(table.error);
    }
    var collected := CollectLoads(table.value, phnum, big, size);
    if collected.Err? {
      return Err(collected.error);
    }
    var loads := collected.value;
    if !(1 <= |loads| <= MAX_LOAD_SEGMENTS) || TotalBytes(loads) > MAX_NATIVE_BYTES {
      return Err(BadLoadCount);
    }
    r := Ok(Parsed(h, loads));
  }

  method HashLoads(stream: Stream, p: Parsed) returns (r: Result<(seq<byte>, nat, nat), Error>)
    modifies stream
    ensures r == if CoversAll(stream.data, p.loads) then Ok((Preimage(stream.data, p), |p.loads|, TotalBytes(p.loads)))
                 else Err(Truncated)
  {
    hide EntryBytes, Loaded, Encode;
    var digest := new Digest();
    digest.Update(Ascii(TAG) + [0]);
    var normalized := NormalizeHeaderFields(p.header, 0);
    digest.Update(normalized[..]);
    digest.Update(Encode(|p.loads|, 4));
    ghost var front := digest.fed;
    for i := 0 to |p.loads|
      invariant fresh(digest) && CoversAll(stream.data, p.loads[..i])
      invariant digest.fed == front + Body(stream.data, p.loads[..i])
    {
      ghost var before := digest.fed;
      digest.Update(EntryBytes(p.loads[i]));
      var ok := HashSegment(stream, digest, p.loads[i]);
      if !ok {
        assert !Covers(stream.data, p.loads[i]);
        return Err(Truncated);
      }
      assert p.loads[..i + 1][..i] == p.loads[..i];
      assert digest.fed == before + Piece(stream.data, p.loads[i]);
    }
    assert p.loads[..|p.loads|] == p.loads;
    assert digest.fed == Preimage(stream.data, p);
    r := Ok((digest.fed, |p.loads|, TotalBytes(p.loads)));
  }
}

/**
 The fingerprint of ElfFingerprint, read off the bytes of the file: which bytes
 decide whether it is accepted, and which are hashed. Positions are those of the
 ELF64 header and program header of the System V gABI.
 */
module ElfLayout {
  import opened Wrappers
  import opened Checksum
  import opened ElfFingerprint

  lemma {:induction false} ReverseLaw(s: seq<byte>, i: nat)
    requires i < |s|
    ensures Reverse(s)[i] == s[|s| - 1 - i]
  {
    if i < |s| - 1 {
      ReverseLaw(s[1..], i);
    }
  }

  /** Little-endian values are sums of their bytes. */
  lemma {:induction false} DecodeLaw(s: seq<byte>, t: seq<byte>)
    ensures Decode(s + t) == Decode(s) + Pow256(|s|) * Decode(t)
    ensures |t| == 1 ==> Decode(t) == t[0]
  {
    if s == [] {
      assert s + t == t;
    } else {
      assert (s + t)[1..] == s[1..] + t;
      DecodeLaw(s[1..], t);
      ShiftByte(Pow256(|s| - 1), Decode(t));
    }
    if |t| == 1 {
      assert t[1..] == [];
    }
  }

  lemma ShiftByte(p: nat, d: nat)
    ensures 256 * (p * d) == (256 * p) * d
  {
  }

  /** n bytes from `at`, least significant first. */
  function Bytes(data: seq<byte>, at: nat, n: nat, big: bool): (b: seq<byte>)
    requires at + n <= |data|
    ensures |b| == n
  {
    seq(n, i requires 0 <= i < n => if big then data[at + n - 1 - i] else data[at + i])
  }

  function Number(data: seq<byte>, at: nat, n: nat, big: bool): nat
    requires at + n <= |data|
  {
    Decode(Bytes(data, at, n, big))
  }

  lemma FieldIsNumber(data: seq<byte>, from: nat, len: nat, at: nat, n: nat, big: bool)
    requires from + len <= |data| && at + n <= len
    ensures Field(data[from..from + len][at..at + n], big) == Number(data, from + at, n, big)
  {
    var b := data[from..from + len][at..at + n];
    var turned := if big then Reverse(b) else b;
    forall i | 0 <= i < n ensures turned[i] == Bytes(data, from + at, n, big)[i] {
      ReverseLaw(b, i);
    }
    assert turned == Bytes(data, from + at, n, big);
  }

  // ---------------------------------------------------- one program header

  /** The 56 bytes of a program header, each field least significant byte first. */
  function Straight(data: seq<byte>, at: nat, big: bool): (b: seq<byte>)
    requires at + 56 <= |data|
    ensures |b| == 56
  {
    Bytes(data, at, 4, big) + Bytes(data, at + 4, 4, big) + Bytes(data, at + 8, 8, big) + Bytes(data, at + 16, 8, big)
    + Bytes(data, at + 24, 8, big) + Bytes(data, at + 32, 8, big) + Bytes(data, at + 40, 8, big) + Bytes(data, at + 48, 8, big)
  }

  /** A little-endian header is its bytes as they stand. */
  lemma LittleIsStraight(data: seq<byte>, at: nat)
    requires at + 56 <= |data|
    ensures Straight(data, at, false) == data[at..at + 56]
  {
  }

  predicate IsLoad(data: seq<byte>, at: nat, big: bool)
    requires at + 56 <= |data|
  {
    Number(data, at, 4, big) == 1
  }

  predicate InFile(data: seq<byte>, at: nat, big: bool, size: nat)
    requires at + 56 <= |data|
  {
    && Number(data, at + 32, 8, big) <= Number(data, at + 40, 8, big)
    && Number(data, at + 8, 8, big) + Number(data, at + 32, 8, big) <= size
  }

  ghost predicate IsPowerOfTwo(n: nat) { exists k: nat :: n == Pow2(k) }

  /** A power of two that divides the distance between address and offset, or at most one. */
  ghost predicate WellAligned(data: seq<byte>, at: nat, big: bool)
    requires at + 56 <= |data|
  {
    var align := Number(data, at + 48, 8, big);
    align <= 1 || (IsPowerOfTwo(align) && (Number(data, at + 16, 8, big) - Number(data, at + 8, 8, big)) % align == 0)
  }

  lemma {:induction false} PowerOfTwoLaw(n: nat)
    ensures PowerOfTwo(n) <==> IsPowerOfTwo(n)
  {
    if n == 1 {
      assert Pow2(0) == 1;
    } else if n > 1 {
      PowerOfTwoLaw(n / 2);
      forall k: nat | n == Pow2(k) ensures n % 2 == 0 && PowerOfTwo(n / 2) {
        assert n / 2 == Pow2(k - 1);
      }
      if n % 2 == 0 && PowerOfTwo(n / 2) {
        var k: nat :| n / 2 == Pow2(k);
        assert n == Pow2(k + 1);
      }
    }
  }

  lemma SliceOfSlice(data: seq<byte>, from: nat, len: nat, i: nat, j: nat)
    requires from + len <= |data| && i <= j <= len
    ensures data[from..from + len][i..j] == data[from + i..from + j]
  {
    var x := data[from..from + len];
    var a, b := x[i..j], data[from + i..from + j];
    forall k | 0 <= k < j - i ensures a[k] == b[k] {
      assert a[k] == x[i + k] && b[k] == data[from + (i + k)];
    }
    assert a == b;
  }

  lemma RowFields(data: seq<byte>, phoff: nat, count: nat, k: nat, big: bool)
    requires k < count && phoff + 56 * count <= |data|
    ensures var (s, at) := (SegmentAt(data[phoff..phoff + 56 * count], k, big), phoff + 56 * k);
            s == Segment(Number(data, at, 4, big), Number(data, at + 4, 4, big), Number(data, at + 8, 8, big),
                         Number(data, at + 16, 8, big), Number(data, at + 24, 8, big), Number(data, at + 32, 8, big),
                         Number(data, at + 40, 8, big), Number(data, at + 48, 8, big))
  {
    hide Field, Number;
    var table, at := data[phoff..phoff + 56 * count], phoff + 56 * k;
    var row := data[at..at + 56];
    SliceOfSlice(data, phoff, 56 * count, 56 * k, 56 * k + 56);
    FieldIsNumber(data, at, 56, 0, 4, big);
    FieldIsNumber(data, at, 56, 4, 4, big);
    FieldIsNumber(data, at, 56, 8, 8, big);
    FieldIsNumber(data, at, 56, 16, 8, big);
    FieldIsNumber(data, at, 56, 24, 8, big);
    FieldIsNumber(data, at, 56, 32, 8, big);
    FieldIsNumber(data, at, 56, 40, 8, big);
    FieldIsNumber(data, at, 56, 48, 8, big);
  }

  lemma NumberEncodes(data: seq<byte>, at: nat, n: nat, big: bool)
    requires at + n <= |data|
    ensures Encode(Number(data, at, n, big), n) == Bytes(data, at, n, big)
  {
    EncodeDecode(Bytes(data, at, n, big));
  }

  lemma SegmentEncodes(data: seq<byte>, at: nat, big: bool, s: Segment)
    requires at + 56 <= |data|
    requires s == Segment(Number(data, at, 4, big), Number(data, at + 4, 4, big), Number(data, at + 8, 8, big),
                          Number(data, at + 16, 8, big), Number(data, at + 24, 8, big), Number(data, at + 32, 8, big),
                          Number(data, at + 40, 8, big), Number(data, at + 48, 8, big))
    ensures EntryBytes(s) == Straight(data, at, big)
  {
    hide Number, Bytes, Encode;
    NumberEncodes(data, at, 4, big);
    NumberEncodes(data, at + 4, 4, big);
    NumberEncodes(data, at + 8, 8, big);
    NumberEncodes(data, at + 16, 8, big);
    NumberEncodes(data, at + 24, 8, big);
    NumberEncodes(data, at + 32, 8, big);
    NumberEncodes(data, at + 40, 8, big);
    NumberEncodes(data, at + 48, 8, big);
  }

  /**
   An entry is hashed as its own 56 bytes, field by field least significant first,
   so a little-endian one as it stands; and it is loaded from where bytes 8 to 15
   say, as many bytes as bytes 32 to 39 say.
   */
  lemma EntryIsItsRow(data: seq<byte>, phoff: nat, count: nat, k: nat, big: bool)
    requires k < count && phoff + 56 * count <= |data|
    ensures var (s, at) := (SegmentAt(data[phoff..phoff + 56 * count], k, big), phoff + 56 * k);
            && EntryBytes(s) == Straight(data, at, big)
            && s.offset == Number(data, at + 8, 8, big) && s.filesz == Number(data, at + 32, 8, big)
  {
    hide Number, EntryBytes, Straight, SegmentAt;
    RowFields(data, phoff, count, k, big);
    SegmentEncodes(data, phoff + 56 * k, big, SegmentAt(data[phoff..phoff + 56 * count], k, big));
  }

  // --------------------------------------------------------- the whole table

  /** The positions in the file of the table's PT_LOAD entries. */
  function LoadsAt(data: seq<byte>, phoff: nat, count: nat, big: bool): (at: seq<nat>)
    requires phoff + 56 * count <= |data|
    ensures forall i :: 0 <= i < |at| ==> at[i] + 56 <= phoff + 56 * count
  {
    if count == 0 then []
    else
      var before, last := LoadsAt(data, phoff, count - 1, big), phoff + 56 * (count - 1);
      if IsLoad(data, last, big) then before + [last] else before
  }

  /** They are exactly the PT_LOAD positions, ascending. */
  lemma {:induction false} LoadsAtLaw(data: seq<byte>, phoff: nat, count: nat, big: bool, k: nat)
    requires phoff + 56 * count <= |data| && k < count
    ensures phoff + 56 * k in LoadsAt(data, phoff, count, big) <==> IsLoad(data, phoff + 56 * k, big)
    ensures forall i, j :: 0 <= i < j < |LoadsAt(data, phoff, count, big)| ==>
              LoadsAt(data, phoff, count, big)[i] < LoadsAt(data, phoff, count, big)[j]
    decreases count
  {
    hide IsLoad;
    var before, last := LoadsAt(data, phoff, count - 1, big), phoff + 56 * (count - 1);
    if k < count - 1 {
      LoadsAtLaw(data, phoff, count - 1, big, k);
    } else if count > 1 {
      LoadsAtLaw(data, phoff, count - 1, big, count - 2);
    }
    assert last !in before;
  }

  ghost predicate Sound(data: seq<byte>, at: nat, big: bool, size: nat)
    requires at + 56 <= |data|
  {
    InFile(data, at, big, size) && WellAligned(data, at, big)
  }

  /** s is the entry at position `at`. */
  predicate IsRow(data: seq<byte>, at: nat, big: bool, s: Segment)
    requires at + 56 <= |data|
  {
    && EntryBytes(s) == Straight(data, at, big)
    && s.offset == Number(data, at + 8, 8, big) && s.filesz == Number(data, at + 32, 8, big)
  }

  /** The scan's answer for the entries at these positions. */
  ghost predicate Scanned(data: seq<byte>, at: seq<nat>, big: bool, size: nat, loads: Result<seq<Segment>, Error>)
    requires forall i :: 0 <= i < |at| ==> at[i] + 56 <= |data|
  {
    match loads
    case Ok(ls) =>
      |ls| == |at| && forall i :: 0 <= i < |at| ==> Sound(data, at[i], big, size) && IsRow(data, at[i], big, ls[i])
    case Err(e) =>
      exists i :: 0 <= i < |at| && FirstBad(data, at, i, big, size)
                  && e == if InFile(data, at[i], big, size) then BadAlignment else BadSegmentRange
  }

  ghost predicate FirstBad(data: seq<byte>, at: seq<nat>, i: nat, big: bool, size: nat)
    requires i < |at| && forall i :: 0 <= i < |at| ==> at[i] + 56 <= |data|
  {
    !Sound(data, at[i], big, size) && forall j :: 0 <= j < i ==> Sound(data, at[j], big, size)
  }

  lemma ScanStep(data: seq<byte>, at: seq<nat>, last: nat, big: bool, size: nat, before: Result<seq<Segment>, Error>, s: Segment)
    requires forall i :: 0 <= i < |at| ==> at[i] + 56 <= |data|
    requires last + 56 <= |data| && Scanned(data, at, big, size, before) && IsRow(data, last, big, s)
    ensures Scanned(data, at + [last], big, size,
                    if before.Err? then before else if !InFile(data, last, big, size) then Err(BadSegmentRange)
                    else if !WellAligned(data, last, big) then Err(BadAlignment) else Ok(before.value + [s]))
  {
    hide InFile, WellAligned, IsRow;
    var all := at + [last];
    if before.Err? {
      var i :| 0 <= i < |at| && FirstBad(data, at, i, big, size)
               && before.error == if InFile(data, at[i], big, size) then BadAlignment else BadSegmentRange;
      assert FirstBad(data, all, i, big, size);
    } else if !Sound(data, last, big, size) {
      assert FirstBad(data, all, |at|, big, size);
    }
  }

  lemma AlignmentLaw(data: seq<byte>, at: nat, big: bool, s: Segment)
    requires at + 56 <= |data| && s.offset == Number(data, at + 8, 8, big)
    requires s.vaddr == Number(data, at + 16, 8, big) && s.align == Number(data, at + 48, 8, big)
    ensures Aligned(s) <==> WellAligned(data, at, big)
  {
    hide Number, IsPowerOfTwo, PowerOfTwo;
    PowerOfTwoLaw(s.align);
  }

  /** What the last of n entries adds. */
  lemma LastEntry(data: seq<byte>, phoff: nat, count: nat, n: nat, big: bool, size: nat)
    requires 0 < n <= count && phoff + 56 * count <= |data|
    ensures var (table, last) := (data[phoff..phoff + 56 * count], phoff + 56 * (n - 1));
            var (before, s) := (Loads(table, n - 1, big, size), SegmentAt(table, n - 1, big));
            && IsRow(data, last, big, s)
            && Loads(table, n, big, size)
               == if before.Err? || !IsLoad(data, last, big) then before
                  else if !InFile(data, last, big, size) then Err(BadSegmentRange)
                  else if !WellAligned(data, last, big) then Err(BadAlignment) else Ok(before.value + [s])
  {
    hide SegmentAt, EntryBytes, Straight, Number, Aligned, WellAligned;
    EntryIsItsRow(data, phoff, count, n - 1, big);
    RowFields(data, phoff, count, n - 1, big);
    AlignmentLaw(data, phoff + 56 * (n - 1), big, SegmentAt(data[phoff..phoff + 56 * count], n - 1, big));
  }

  /**
   The scan accepts exactly a table whose PT_LOAD entries are all sound, and returns
   those entries in order; otherwise the first unsound one decides the error.
   */
  lemma {:induction false} ScanMeans(data: seq<byte>, phoff: nat, count: nat, n: nat, big: bool, size: nat)
    requires n <= count && phoff + 56 * count <= |data|
    ensures Scanned(data, LoadsAt(data, phoff, n, big), big, size, Loads(data[phoff..phoff + 56 * count], n, big, size))
    decreases n
  {
    if n == 0 {
      hide SegmentAt, IsRow, InFile, WellAligned, IsLoad;
    } else {
      hide SegmentAt, IsRow, InFile, WellAligned, IsLoad, Scanned, Loads, LoadsAt;
      var table, last := data[phoff..phoff + 56 * count], phoff + 56 * (n - 1);
      ScanMeans(data, phoff, count, n - 1, big, size);
      LastEntry(data, phoff, count, n, big, size);
      LoadsAtStep(data, phoff, n, big);
      if IsLoad(data, last, big) {
        ScanStep(data, LoadsAt(data, phoff, n - 1, big), last, big, size, Loads(table, n - 1, big, size),
            SegmentAt(table, n - 1, big));
      }
    }
  }

  lemma LoadsAtStep(data: seq<byte>, phoff: nat, n: nat, big: bool)
    requires 0 < n && phoff + 56 * n <= |data|
    ensures var (before, last) := (LoadsAt(data, phoff, n - 1, big), phoff + 56 * (n - 1));
            LoadsAt(data, phoff, n, big) == if IsLoad(data, last, big) then before + [last] else before
  {
    hide IsLoad;
  }

  // ----------------------------------------------------------- the whole file

  /** \x7fELF, 64 bit, either byte order, version 1. */
  predicate Ident(data: seq<byte>)
    requires |data| >= 64
  {
    && data[0] == 0x7f && data[1] == 'E' as int && data[2] == 'L' as int && data[3] == 'F' as int
    && data[4] == 2 && data[5] in {1, 2} && data[6] == 1
  }

  predicate Big(data: seq<byte>)
    requires |data| >= 64
  {
    data[5] == 2
  }

  function PhOff(data: seq<byte>): nat
    requires |data| >= 64
  {
    Number(data, 32, 8, Big(data))
  }

  function PhNum(data: seq<byte>): nat
    requires |data| >= 64
  {
    Number(data, 56, 2, Big(data))
  }

  /** Header size 64, entry size 56, one to 1024 entries. */
  predicate TableOk(data: seq<byte>)
    requires |data| >= 64
  {
    Number(data, 52, 2, Big(data)) == 64 && Number(data, 54, 2, Big(data)) == 56 && 1 <= PhNum(data) <= 1024
  }

  /** The bytes that the entries at these positions ask to load. */
  function Asked(data: seq<byte>, at: seq<nat>, big: bool): nat
    requires forall i :: 0 <= i < |at| ==> at[i] + 56 <= |data|
  {
    if at == [] then 0 else Asked(data, at[..|at| - 1], big) + Number(data, at[|at| - 1] + 32, 8, big)
  }

  lemma {:induction false} TotalIsAsked(data: seq<byte>, at: seq<nat>, big: bool, loads: seq<Segment>)
    requires (forall i :: 0 <= i < |at| ==> at[i] + 56 <= |data|) && |loads| == |at|
    requires forall i :: 0 <= i < |at| ==> IsRow(data, at[i], big, loads[i])
    ensures TotalBytes(loads) == Asked(data, at, big)
  {
    hide Number, EntryBytes, Straight;
    if at != [] {
      TotalIsAsked(data, at[..|at| - 1], big, loads[..|at| - 1]);
    }
  }

  /** Why a file is refused, in the order of the checks, or the entries it is accepted with. */
  ghost predicate ParsedAs(data: seq<byte>, size: nat, p: Result<Parsed, Error>) {
    if size < 64 || size > 512 * 1024 * 1024 then p == Err(SizeBound)
    else if |data| < 64 then p == Err(Truncated)
    else if !Ident(data) then p == Err(NotElf64)
    else if !TableOk(data) then p == Err(BadTable)
    else if PhOff(data) + 56 * PhNum(data) > size then p == Err(OutOfRange)
    else if PhOff(data) + 56 * PhNum(data) > |data| then p == Err(Truncated)
    else
      var at := LoadsAt(data, PhOff(data), PhNum(data), Big(data));
      if exists i :: 0 <= i < |at| && !Sound(data, at[i], Big(data), size) then
        p.Err? && Scanned(data, at, Big(data), size, Err(p.error))
      else if |at| < 1 || |at| > 64 || Asked(data, at, Big(data)) > 512 * 1024 * 1024 then p == Err(BadLoadCount)
      else p.Ok? && p.value.header == data[..64] && Scanned(data, at, Big(data), size, Ok(p.value.loads))
  }

  lemma HeaderFields(data: seq<byte>)
    requires |data| >= 64
    ensures var (h, big) := (data[..64], Big(data));
            && (IsElf64(h) <==> Ident(data)) && (h[5] == 2 <==> big)
            && Field(h[32..40], big) == PhOff(data) && Field(h[56..58], big) == PhNum(data)
            && Field(h[52..54], big) == Number(data, 52, 2, big) && Field(h[54..56], big) == Number(data, 54, 2, big)
  {
    hide Field, Number;
    assert data[0..64] == data[..64];
    FieldIsNumber(data, 0, 64, 32, 8, Big(data));
    FieldIsNumber(data, 0, 64, 56, 2, Big(data));
    FieldIsNumber(data, 0, 64, 52, 2, Big(data));
    FieldIsNumber(data, 0, 64, 54, 2, Big(data));
    var h := data[..64];
    assert h[..4] == [h[0], h[1], h[2], h[3]];
  }

  /** Acceptance, refusal and the entries kept, from the bytes of the file alone. */
  lemma ParseMeans(data: seq<byte>, size: nat)
    ensures ParsedAs(data, size, ParseElf(data, size))
  {
    hide Ident, IsElf64, Field, Number, Loads, LoadsAt, Scanned, IsRow, Sound, TotalBytes, Asked;
    if 64 <= size <= 512 * 1024 * 1024 && |data| >= 64 {
      HeaderFields(data);
      var header := data[0..64];
      assert header == data[..64];
      if Ident(data) && TableOk(data) && PhOff(data) + 56 * PhNum(data) <= size && PhOff(data) + 56 * PhNum(data) <= |data| {
        TableMeans(data, size, header);
      }
    }
  }

  lemma TableMeans(data: seq<byte>, size: nat, header: seq<byte>)
    requires 64 <= size <= 512 * 1024 * 1024 && |data| >= 64 && header == data[..64] && Ident(data) && TableOk(data)
    requires PhOff(data) + 56 * PhNum(data) <= size && PhOff(data) + 56 * PhNum(data) <= |data|
    ensures ParsedAs(data, size, ParseElf(data, size))
  {
    hide Ident, IsElf64, Field, Number, Loads, LoadsAt, Scanned, IsRow, Sound, TotalBytes, Asked;
    var big, phoff, phnum := Big(data), PhOff(data), PhNum(data);
    var table, at := data[phoff..phoff + 56 * phnum], LoadsAt(data, phoff, phnum, big);
    HeaderFields(data);
    assert data[0..64] == header;
    assert ReadAt(data, phoff, 56 * phnum, size) == Ok(table);
    ScanMeans(data, phoff, phnum, phnum, big, size);
    ScanDecides(data, at, big, size, Loads(table, phnum, big, size));
  }

  lemma ScanDecides(data: seq<byte>, at: seq<nat>, big: bool, size: nat, loads: Result<seq<Segment>, Error>)
    requires (forall i :: 0 <= i < |at| ==> at[i] + 56 <= |data|) && Scanned(data, at, big, size, loads)
    ensures loads.Err? <==> exists i :: 0 <= i < |at| && !Sound(data, at[i], big, size)
    ensures loads.Ok? ==> |loads.value| == |at| && TotalBytes(loads.value) == Asked(data, at, big)
  {
    hide Sound, IsRow;
    if loads.Ok? {
      TotalIsAsked(data, at, big, loads.value);
    }
  }

  /** File bytes with the section-table fields of the header, bytes 40 to 47 and 58 to 63, blanked. */
  function Blanked(data: seq<byte>, from: nat, len: nat): seq<byte>
    requires from + len <= |data|
  {
    seq(len, i requires 0 <= i < len =>
      if 40 <= from + i <= 47 || 58 <= from + i <= 63 then 0 else data[from + i])
  }

  /** The entries loaded from inside the file. */
  predicate LoadsInside(data: seq<byte>, at: seq<nat>, big: bool)
    requires forall i :: 0 <= i < |at| ==> at[i] + 56 <= |data|
  {
    forall i :: 0 <= i < |at| ==>
      Number(data, at[i] + 32, 8, big) > 0 ==> Number(data, at[i] + 8, 8, big) + Number(data, at[i] + 32, 8, big) <= |data|
  }

  /** Each entry's own bytes, then the bytes it loads. */
  function EntriesHashed(data: seq<byte>, at: seq<nat>, big: bool): seq<byte>
    requires (forall i :: 0 <= i < |at| ==> at[i] + 56 <= |data|) && LoadsInside(data, at, big)
  {
    if at == [] then []
    else
      var (front, last) := (at[..|at| - 1], at[|at| - 1]);
      var (from, len) := (Number(data, last + 8, 8, big), Number(data, last + 32, 8, big));
      EntriesHashed(data, front, big) + (Straight(data, last, big) + if len == 0 then [] else Blanked(data, from, len))
  }

  lemma {:induction false} BodyIsEntries(data: seq<byte>, at: seq<nat>, big: bool, loads: seq<Segment>)
    requires (forall i :: 0 <= i < |at| ==> at[i] + 56 <= |data|) && |loads| == |at|
    requires forall i :: 0 <= i < |at| ==> IsRow(data, at[i], big, loads[i])
    ensures CoversAll(data, loads) <==> LoadsInside(data, at, big)
    ensures CoversAll(data, loads) ==> Body(data, loads) == EntriesHashed(data, at, big)
  {
    hide Number, EntryBytes, Straight, Blanked, Normalize;
    if at != [] && CoversAll(data, loads) {
      var k := |at| - 1;
      BodyIsEntries(data, at[..k], big, loads[..k]);
      if loads[k].filesz > 0 {
        BlankedIsNormalized(data, loads[k].offset, loads[k].filesz);
      }
    }
  }

  lemma BlankedIsNormalized(data: seq<byte>, from: nat, len: nat)
    requires from + len <= |data|
    ensures Blanked(data, from, len) == Normalize(data[from..from + len], from)
  {
    var slice := data[from..from + len];
    var a, b := Blanked(data, from, len), Normalize(slice, from);
    forall i | 0 <= i < len ensures a[i] == b[i] {
      assert slice[i] == data[from + i];
      assert b[i] == if SectionField(from + i) then 0 else slice[i];
    }
    assert a == b;
  }

  /** "TinyPaws-ELF64-PT_LOAD-v1" in ASCII, and a zero byte. */
  const TAG_BYTES: seq<byte> := [
    0x54, 0x69, 0x6e, 0x79, 0x50, 0x61, 0x77, 0x73, 0x2d, 0x45, 0x4c, 0x46, 0x36,
    0x34, 0x2d, 0x50, 0x54, 0x5f, 0x4c, 0x4f, 0x41, 0x44, 0x2d, 0x76, 0x31, 0
  ]

  lemma TagLaw()
    ensures Ascii(TAG) + [0] == TAG_BYTES
  {
    assert |TAG| == 25;
  }

  /** The entries an accepted file is hashed with are the rows of its table. */
  lemma AcceptedRows(data: seq<byte>, size: nat)
    requires ParseElf(data, size).Ok?
    ensures |data| >= 64 && PhOff(data) + 56 * PhNum(data) <= |data| && ParseElf(data, size).value.header == data[..64]
    ensures var (at, loads) := (LoadsAt(data, PhOff(data), PhNum(data), Big(data)), ParseElf(data, size).value.loads);
            |loads| == |at| && forall i :: 0 <= i < |at| ==> IsRow(data, at[i], Big(data), loads[i])
  {
    hide ParseElf, Number, LoadsAt, IsRow, Sound, Asked, Ident, TableOk, PhOff, PhNum;
    ParseMeans(data, size);
  }

  lemma PreimageMeans(data: seq<byte>, at: seq<nat>, big: bool, p: Parsed)
    requires |data| >= 64 && p.header == data[..64]
    requires (forall i :: 0 <= i < |at| ==> at[i] + 56 <= |data|) && |p.loads| == |at|
    requires forall i :: 0 <= i < |at| ==> IsRow(data, at[i], big, p.loads[i])
    ensures CoversAll(data, p.loads) <==> LoadsInside(data, at, big)
    ensures CoversAll(data, p.loads) ==>
              Preimage(data, p) == TAG_BYTES + Blanked(data, 0, 64) + Encode(|at|, 4) + EntriesHashed(data, at, big)
  {
    hide IsRow, LoadsInside, CoversAll, Encode, Ascii, Normalize, Blanked, Body, EntriesHashed, TAG_BYTES;
    BodyIsEntries(data, at, big, p.loads);
    assert data[0..64] == data[..64];
    BlankedIsNormalized(data, 0, 64);
    TagLaw();
  }

  /**
   The bytes an accepted file is hashed as: the format's name, its header with the
   section fields blanked, how many entries it loads, and each of these followed by
   the bytes it loads, blanked likewise.
   */
  lemma HashedBytes(data: seq<byte>, size: nat)
    requires ParseElf(data, size).Ok?
    ensures |data| >= 64 && PhOff(data) + 56 * PhNum(data) <= |data|
    ensures var at := LoadsAt(data, PhOff(data), PhNum(data), Big(data));
            if !LoadsInside(data, at, Big(data)) then Fingerprint(data, size) == Err(Truncated)
            else
              Fingerprint(data, size)
              == Ok((TAG_BYTES + Blanked(data, 0, 64) + Encode(|at|, 4) + EntriesHashed(data, at, Big(data)),
                     |at|, Asked(data, at, Big(data))))
  {
    hide ParseElf, LoadsAt, IsRow, LoadsInside, CoversAll, Encode, Blanked, EntriesHashed, TAG_BYTES, Preimage, TotalBytes, Asked,
      PhOff, PhNum, Big;
    AcceptedRows(data, size);
    var (p, at) := (ParseElf(data, size).value, LoadsAt(data, PhOff(data), PhNum(data), Big(data)));
    TotalIsAsked(data, at, Big(data), p.loads);
    PreimageMeans(data, at, Big(data), p);
  }
}

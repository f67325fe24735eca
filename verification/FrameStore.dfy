/**
 The double-slot frame store of platform_ipc.rs.

 The specification is on memory images (`seq<byte>`); class Store writes the
 mapped array in place. A header write is one step, a payload write may be cut
 anywhere. The content is opaque bytes: JSON is not part of this model.
 */
module FrameStore {
  import opened Wrappers
  import opened Checksum

  const REGION_SIZE := 8 * 1024 * 1024
  const REGION_HEADER_SIZE := 4096
  const UI_LANE_SIZE := 1024 * 1024
  const FRAME_HEADER_SIZE := 32
  const FRAME_MAGIC := 0x5041_5753
  const PROTOCOL_VERSION := 2
  const MAX_GENERATION: nat := U64 - 1

  datatype Role = Ui | Vpn

  type Image = s: seq<byte> | |s| == REGION_SIZE witness seq(REGION_SIZE, i => 0)

  // ---------------------------------------------------------------- layout

  function LaneOffset(role: Role): nat {
    if role.Ui? then REGION_HEADER_SIZE else REGION_HEADER_SIZE + UI_LANE_SIZE
  }

  function SlotSize(role: Role): nat {
    if role.Ui? then UI_LANE_SIZE / 2 else (REGION_SIZE - REGION_HEADER_SIZE - UI_LANE_SIZE) / 2
  }

  /** Where the slot of generation g starts. */
  function SlotOffset(role: Role, g: nat): nat {
    if g % 2 == 0 then LaneOffset(role) else LaneOffset(role) + SlotSize(role)
  }

  function MaxContent(role: Role): nat { SlotSize(role) - FRAME_HEADER_SIZE }

  /** The four slots and the region header are in bounds and disjoint. */
  lemma SlotsAreDisjoint(r1: Role, g1: nat, r2: Role, g2: nat)
    ensures REGION_HEADER_SIZE <= SlotOffset(r1, g1) && SlotOffset(r1, g1) + SlotSize(r1) <= REGION_SIZE
    ensures r1 != r2 || g1 % 2 != g2 % 2 ==>
              SlotOffset(r1, g1) + SlotSize(r1) <= SlotOffset(r2, g2) || SlotOffset(r2, g2) + SlotSize(r2) <= SlotOffset(r1, g1)
    ensures FRAME_HEADER_SIZE + MaxContent(r1) == SlotSize(r1) < U32
  {
  }

  // --------------------------------------------------------------- headers

  datatype Header = Header(generation: nat, length: nat, sum: nat)
  {
    predicate Valid(slotSize: nat) {
      generation < U64 && sum < U32 && length + FRAME_HEADER_SIZE <= slotSize < U32
    }
  }

  function HeaderBody(h: Header): (s: seq<byte>)
    ensures |s| == 24
  {
    Encode(FRAME_MAGIC, 4) + Encode(PROTOCOL_VERSION, 4) + Encode(h.generation, 8) + Encode(h.length, 4) + Encode(h.sum, 4)
  }

  /** The header write_frame commits. */
  function HeaderBytes(h: Header): (s: seq<byte>)
    ensures |s| == FRAME_HEADER_SIZE
  {
    HeaderBody(h) + Encode(Sum(HeaderBody(h)), 4) + Encode(0, 4)
  }

  function Parse(b: seq<byte>, slotSize: nat): Option<Header>
    requires slotSize >= FRAME_HEADER_SIZE
  {
    if |b| != FRAME_HEADER_SIZE || Decode(b[0..4]) != FRAME_MAGIC || Decode(b[4..8]) != PROTOCOL_VERSION
       || Decode(b[24..28]) != Sum(b[..24])
       || Decode(b[16..20]) > slotSize - FRAME_HEADER_SIZE
    then None
    else Some(Header(Decode(b[8..16]), Decode(b[16..20]), Decode(b[20..24])))
  }

  /** FrameHeader::parse inverts the header that write_frame builds. */
  lemma ParseInvertsHeader(h: Header, slotSize: nat)
    requires h.Valid(slotSize)
    ensures Parse(HeaderBytes(h), slotSize) == Some(h)
  {
    Widths();
    var b, body := HeaderBytes(h), HeaderBody(h);
    SumRange(body);
    hide Encode, Decode, Sum, Pow256;
    assert b[..24] == body && b[24..28] == Encode(Sum(body), 4);
    assert b[0..4] == body[0..4] == Encode(FRAME_MAGIC, 4);
    assert b[4..8] == body[4..8] == Encode(PROTOCOL_VERSION, 4);
    assert b[8..16] == body[8..16] == Encode(h.generation, 8);
    assert b[16..20] == body[16..20] == Encode(h.length, 4);
    assert b[20..24] == body[20..24] == Encode(h.sum, 4);
    DecodeEncode(FRAME_MAGIC, 4);
    DecodeEncode(PROTOCOL_VERSION, 4);
    DecodeEncode(h.generation, 8);
    DecodeEncode(h.length, 4);
    DecodeEncode(h.sum, 4);
    DecodeEncode(Sum(body), 4);
  }

  /** What parses is exactly a committed header; its last four bytes are free. */
  lemma ParseOnlyAcceptsHeaders(b: seq<byte>, slotSize: nat)
    requires FRAME_HEADER_SIZE <= slotSize < U32 && Parse(b, slotSize).Some?
    ensures Parse(b, slotSize).value.Valid(slotSize)
    ensures b[..28] == HeaderBytes(Parse(b, slotSize).value)[..28]
  {
    Widths();
    hide Sum, Encode, Decode, Pow256;
    var h := Parse(b, slotSize).value;
    EncodeDecode(b[0..4]);
    EncodeDecode(b[4..8]);
    EncodeDecode(b[8..16]);
    EncodeDecode(b[16..20]);
    EncodeDecode(b[20..24]);
    EncodeDecode(b[24..28]);
    assert b[..24] == b[0..4] + b[4..8] + b[8..16] + b[16..20] + b[20..24] == HeaderBody(h);
    assert b[..28] == b[..24] + b[24..28];
  }

  /** One changed byte among the 28 checked ones is always rejected. */
  lemma OneByteCorruptionRejected(b: seq<byte>, c: seq<byte>, i: nat, slotSize: nat)
    requires FRAME_HEADER_SIZE <= slotSize < U32 && Parse(b, slotSize).Some?
    requires DifferOnlyAt(b, c, i) && i < 28
    ensures Parse(c, slotSize).None?
  {
    hide Sum, Decode, Encode;
    if i < 24 {
      OneByteChangesSum(b[..24], c[..24], i);
      assert b[24..28] == c[24..28];
    } else {
      assert b[..24] == c[..24];
      assert b[24..28][i - 24] != c[24..28][i - 24];
      EncodeDecode(b[24..28]);
      EncodeDecode(c[24..28]);
    }
  }

  // ----------------------------------------------------------------- slots

  datatype Stored = Stored(generation: nat, content: seq<byte>)

  /** The header in the bytes of one slot. */
  function HeaderOf(slot: seq<byte>): Option<Header>
    requires |slot| >= FRAME_HEADER_SIZE
  {
    Parse(slot[..FRAME_HEADER_SIZE], |slot|)
  }

  lemma ParsedFits(b: seq<byte>, slotSize: nat)
    requires slotSize >= FRAME_HEADER_SIZE
    ensures Parse(b, slotSize).Some? ==> Parse(b, slotSize).value.length + FRAME_HEADER_SIZE <= slotSize
  {
  }

  /** read_frame on the bytes of one slot. */
  function FrameOf(slot: seq<byte>): Option<Stored>
    requires |slot| >= FRAME_HEADER_SIZE
  {
    ParsedFits(slot[..FRAME_HEADER_SIZE], |slot|);
    var h := HeaderOf(slot);
    if h.None? then None
    else
      var content := slot[FRAME_HEADER_SIZE..FRAME_HEADER_SIZE + h.value.length];
      if Sum(content) == h.value.sum then Some(Stored(h.value.generation, content)) else None
  }

  function SlotBytes(m: Image, role: Role, g: nat): (b: seq<byte>)
    ensures |b| == SlotSize(role)
  {
    m[SlotOffset(role, g)..SlotOffset(role, g) + SlotSize(role)]
  }

  function HeaderAt(m: Image, role: Role, g: nat): Option<Header> { HeaderOf(SlotBytes(m, role, g)) }

  function FrameAt(m: Image, role: Role, g: nat): Option<Stored> { FrameOf(SlotBytes(m, role, g)) }

  lemma SameSlot(m: Image, role: Role, g: nat)
    ensures SlotBytes(m, role, g) == SlotBytes(m, role, g % 2)
    ensures SlotBytes(m, role, g + 1) == SlotBytes(m, role, 1 - g % 2)
  {
    assert SlotOffset(role, g) == SlotOffset(role, g % 2) && SlotOffset(role, g + 1) == SlotOffset(role, 1 - g % 2);
  }

  lemma SameParity(m: Image, role: Role, g: nat, h: nat)
    requires g % 2 == h % 2
    ensures SlotBytes(m, role, g) == SlotBytes(m, role, h)
  {
  }

  // ----------------------------------------------------------------- lanes

  function Later(a: Option<Stored>, b: Option<Stored>): Option<Stored> {
    if b.Some? && (a.None? || b.value.generation > a.value.generation) then b else a
  }

  /** read_lane before decoding: the newest frame of the two slots. */
  function Latest(m: Image, role: Role): Option<Stored> {
    Later(FrameAt(m, role, 0), FrameAt(m, role, 1))
  }

  function Newest(a: Option<Header>, b: Option<Header>): Option<nat> {
    if a.None? && b.None? then None
    else if a.None? then Some(b.value.generation)
    else if b.None? then Some(a.value.generation)
    else Some(if b.value.generation > a.value.generation then b.value.generation else a.value.generation)
  }

  /** latest_generation: by headers alone. */
  function LatestGeneration(m: Image, role: Role): Option<nat> {
    Newest(HeaderAt(m, role, 0), HeaderAt(m, role, 1))
  }

  /** The other slot's header is older than generation g, or unreadable. */
  predicate OtherIsOlder(m: Image, role: Role, g: nat) {
    HeaderAt(m, role, g + 1).Some? ==> HeaderAt(m, role, g + 1).value.generation < g
  }

  /** The lane's committed frame is f. */
  predicate Holds(m: Image, role: Role, f: Stored) {
    FrameAt(m, role, f.generation) == Some(f) && OtherIsOlder(m, role, f.generation)
  }

  /** Never published: no header parses. */
  predicate Blank(m: Image, role: Role) {
    HeaderAt(m, role, 0).None? && HeaderAt(m, role, 1).None?
  }

  lemma FrameHasHeader(slot: seq<byte>)
    requires |slot| >= FRAME_HEADER_SIZE
    ensures FrameOf(slot).Some? ==> HeaderOf(slot).Some? && HeaderOf(slot).value.generation == FrameOf(slot).value.generation
  {
    hide HeaderOf, Sum;
  }

  /** What a reader and a reattaching publisher see of a committed frame. */
  lemma HoldsMeansLatest(m: Image, role: Role, f: Stored)
    requires Holds(m, role, f)
    ensures Latest(m, role) == Some(f) && LatestGeneration(m, role) == Some(f.generation)
  {
    hide HeaderOf, FrameOf, SlotBytes;
    SameSlot(m, role, f.generation);
    FrameHasHeader(SlotBytes(m, role, 0));
    FrameHasHeader(SlotBytes(m, role, 1));
  }

  // --------------------------------------------------------------- writing

  function Overlay(m: Image, at: nat, data: seq<byte>): Image
    requires at + |data| <= REGION_SIZE
  {
    m[..at] + data + m[at + |data|..]
  }

  /** The payload of generation g, cut anywhere: some bytes of its area are new, every other byte is untouched. */
  ghost predicate Torn(m: Image, t: Image, role: Role, g: nat, content: seq<byte>)
    requires |content| <= MaxContent(role)
  {
    var at := SlotOffset(role, g) + FRAME_HEADER_SIZE;
    forall k :: 0 <= k < REGION_SIZE ==>
      t[k] == m[k] || (at <= k < at + |content| && t[k] == content[k - at])
  }

  function HeaderFor(g: nat, content: seq<byte>): Header {
    Header(g, |content|, Sum(content))
  }

  function WithPayload(m: Image, role: Role, g: nat, content: seq<byte>): Image
    requires |content| <= MaxContent(role)
  {
    SlotsAreDisjoint(role, g, role, g);
    Overlay(m, SlotOffset(role, g) + FRAME_HEADER_SIZE, content)
  }

  /** write_frame: payload, then header. */
  function Written(m: Image, role: Role, g: nat, content: seq<byte>): Image
    requires |content| <= MaxContent(role)
  {
    SlotsAreDisjoint(role, g, role, g);
    Overlay(WithPayload(m, role, g, content), SlotOffset(role, g), HeaderBytes(HeaderFor(g, content)))
  }

  lemma TornSlots(m: Image, t: Image, role: Role, n: nat, content: seq<byte>, r: Role, g: nat)
    requires |content| <= MaxContent(role) && Torn(m, t, role, n, content)
    ensures r != role || g % 2 != n % 2 ==> SlotBytes(t, r, g) == SlotBytes(m, r, g)
    ensures SlotBytes(t, role, n)[..FRAME_HEADER_SIZE] == SlotBytes(m, role, n)[..FRAME_HEADER_SIZE]
  {
    SlotsAreDisjoint(role, n, r, g);
    SlotsAreDisjoint(role, n, role, n);
    SlotsAreDisjoint(r, g, r, g);
    var at, size := SlotOffset(role, n), SlotSize(role);
    hide SlotOffset, SlotSize, MaxContent;
    SameRange(m, t, at, at + FRAME_HEADER_SIZE);
    SubSlice(m, at, size, 0, FRAME_HEADER_SIZE);
    SubSlice(t, at, size, 0, FRAME_HEADER_SIZE);
    if r != role || g % 2 != n % 2 {
      SameRange(m, t, SlotOffset(r, g), SlotOffset(r, g) + SlotSize(r));
    }
  }

  lemma SameRange(m: Image, t: Image, lo: nat, hi: nat)
    requires lo <= hi <= REGION_SIZE && forall k :: lo <= k < hi ==> t[k] == m[k]
    ensures t[lo..hi] == m[lo..hi]
  {
  }

  lemma SubSlice(m: Image, at: nat, size: nat, lo: nat, hi: nat)
    requires lo <= hi <= size && at + size <= REGION_SIZE
    ensures m[at..at + size][lo..hi] == m[at + lo..at + hi]
  {
    var slot := m[at..at + size];
    assert forall k :: lo <= k < hi ==> slot[k] == m[at + k];
  }

  /**
   Writing another slot, however it is cut, leaves the committed frame in place:
   while generation n is being written, a reader still gets exactly frame f.
   */
  lemma TornPayloadKeepsFrame(m: Image, t: Image, role: Role, f: Stored, n: nat, content: seq<byte>)
    requires Holds(m, role, f) && |content| <= MaxContent(role)
    requires n % 2 != f.generation % 2 && Torn(m, t, role, n, content)
    ensures Holds(t, role, f) && Latest(t, role) == Some(f) && LatestGeneration(t, role) == Some(f.generation)
  {
    hide FrameOf, Parse, Torn, SlotBytes, LatestGeneration, Latest, SlotOffset, MaxContent, Sum, Blank;
    TornSlots(m, t, role, n, content, role, f.generation);
    SameParity(m, role, n, f.generation + 1);
    SameParity(t, role, n, f.generation + 1);
    assert HeaderAt(t, role, f.generation + 1) == HeaderAt(m, role, f.generation + 1);
    HoldsMeansLatest(t, role, f);
  }

  lemma OverlaySlices(m: Image, at: nat, data: seq<byte>, lo: nat, hi: nat)
    requires at + |data| <= REGION_SIZE && lo <= hi <= REGION_SIZE
    ensures hi <= at || at + |data| <= lo ==> Overlay(m, at, data)[lo..hi] == m[lo..hi]
    ensures Overlay(m, at, data)[at..at + |data|] == data
  {
  }

  /** A write changes its own slot only, and there puts the header and the content. */
  lemma WrittenSlots(m: Image, role: Role, n: nat, content: seq<byte>, r: Role, g: nat)
    requires |content| <= MaxContent(role)
    ensures r != role || g % 2 != n % 2 ==> SlotBytes(Written(m, role, n, content), r, g) == SlotBytes(m, r, g)
    ensures var slot := SlotBytes(Written(m, role, n, content), role, n);
            slot[..FRAME_HEADER_SIZE] == HeaderBytes(HeaderFor(n, content))
            && slot[FRAME_HEADER_SIZE..FRAME_HEADER_SIZE + |content|] == content
  {
    SlotsAreDisjoint(role, n, r, g);
    SlotsAreDisjoint(role, n, role, n);
    SlotsAreDisjoint(r, g, r, g);
    hide HeaderBytes, HeaderFor, SlotOffset, SlotSize, Overlay, HeaderBody, Sum, Encode;
    TwoOverlays(m, SlotOffset(role, n), SlotSize(role), content, HeaderBytes(HeaderFor(n, content)),
                SlotOffset(r, g), SlotSize(r));
  }

  /** Payload then header at one place of the image, seen from any other place. */
  lemma TwoOverlays(m: Image, at: nat, size: nat, content: seq<byte>, h: seq<byte>, lo: nat, len: nat)
    requires |h| == 32 && 32 + |content| <= size && at + size <= REGION_SIZE && lo + len <= REGION_SIZE
    ensures var w := Overlay(Overlay(m, at + 32, content), at, h);
            && (at + size <= lo || lo + len <= at ==> w[lo..lo + len] == m[lo..lo + len])
            && w[at..at + size][..32] == h
            && w[at..at + size][32..32 + |content|] == content
  {
    var p := Overlay(m, at + 32, content);
    var w := Overlay(p, at, h);
    OverlaySlices(m, at + 32, content, lo, lo + len);
    OverlaySlices(p, at, h, lo, lo + len);
    OverlaySlices(p, at, h, at + 32, at + 32 + |content|);
    hide Overlay;
    assert w[at..at + size][..32] == w[at..at + 32];
    assert w[at..at + size][32..32 + |content|] == w[at + 32..at + 32 + |content|];
  }

  lemma FreshSlot(slot: seq<byte>, n: nat, content: seq<byte>)
    requires n < U64 && FRAME_HEADER_SIZE + |content| <= |slot| < U32
    requires slot[..FRAME_HEADER_SIZE] == HeaderBytes(HeaderFor(n, content))
    requires slot[FRAME_HEADER_SIZE..FRAME_HEADER_SIZE + |content|] == content
    ensures FrameOf(slot) == Some(Stored(n, content))
  {
    hide Sum, HeaderBytes, Parse;
    SumRange(content);
    ParseInvertsHeader(HeaderFor(n, content), |slot|);
  }

  /** The header write commits: from then on a reader gets exactly generation n. */
  lemma WrittenHolds(m: Image, role: Role, n: nat, content: seq<byte>)
    requires |content| <= MaxContent(role) && n < U64 && OtherIsOlder(m, role, n)
    ensures Holds(Written(m, role, n, content), role, Stored(n, content))
    ensures Latest(Written(m, role, n, content), role) == Some(Stored(n, content))
  {
    hide Written, FrameOf, HeaderOf, SlotBytes, HeaderBytes, HeaderFor, Latest, LatestGeneration, SlotSize, SlotOffset, MaxContent;
    var w := Written(m, role, n, content);
    WrittenSlots(m, role, n, content, role, n + 1);
    SlotsAreDisjoint(role, n, role, n);
    FreshSlot(SlotBytes(w, role, n), n, content);
    HoldsMeansLatest(w, role, Stored(n, content));
  }

  /** Publishing on one lane never shows on the other. */
  lemma OtherLaneUnaffected(m: Image, role: Role, n: nat, content: seq<byte>, r: Role)
    requires |content| <= MaxContent(role) && r != role
    ensures Latest(Written(m, role, n, content), r) == Latest(m, r)
    ensures LatestGeneration(Written(m, role, n, content), r) == LatestGeneration(m, r)
  {
    WrittenSlots(m, role, n, content, r, 0);
    WrittenSlots(m, role, n, content, r, 1);
    hide Written, FrameOf, HeaderOf, SlotBytes;
  }

  // ------------------------------------------- exactly when a write is crash-safe

  /** However the payload of generation n is cut, a reader still gets f. */
  ghost predicate CrashSafe(m: Image, role: Role, f: Stored, n: nat, content: seq<byte>)
    requires |content| <= MaxContent(role)
  {
    forall t: Image :: Torn(m, t, role, n, content) ==> Latest(t, role) == Some(f)
  }

  predicate Agree(a: seq<byte>, b: seq<byte>) {
    forall i :: 0 <= i < |a| && i < |b| ==> a[i] == b[i]
  }

  /** The content bytes a slot's header counts. */
  function Counted(slot: seq<byte>, length: nat): seq<byte>
    requires FRAME_HEADER_SIZE + length <= |slot|
  {
    slot[FRAME_HEADER_SIZE..FRAME_HEADER_SIZE + length]
  }

  lemma FrameFits(a: seq<byte>, f: Stored)
    requires FRAME_HEADER_SIZE <= |a| && FrameOf(a) == Some(f)
    ensures FRAME_HEADER_SIZE + |f.content| <= |a| && Counted(a, |f.content|) == f.content
    ensures HeaderOf(a).Some? && HeaderOf(a).value == Header(f.generation, |f.content|, Sum(f.content))
  {
    hide Parse, Sum;
    ParsedFits(a[..FRAME_HEADER_SIZE], |a|);
  }

  /** A slot with the same header holds the frame exactly when its counted bytes have the same checksum. */
  lemma SameHeaderSlot(a: seq<byte>, b: seq<byte>, f: Stored)
    requires FRAME_HEADER_SIZE <= |a| == |b| && FrameOf(a) == Some(f)
    requires a[..FRAME_HEADER_SIZE] == b[..FRAME_HEADER_SIZE]
    ensures FRAME_HEADER_SIZE + |f.content| <= |b|
    ensures Counted(b, |f.content|) == f.content ==> FrameOf(b) == Some(f)
    ensures Sum(Counted(b, |f.content|)) != Sum(f.content) ==> FrameOf(b) == None
  {
    FrameFits(a, f);
    hide Parse, Sum;
  }

  /** A cut write over the live slot, as bytes of that slot. */
  lemma TornOwnSlot(m: Image, t: Image, role: Role, n: nat, content: seq<byte>)
    requires |content| <= MaxContent(role) && Torn(m, t, role, n, content)
    ensures var a, b := SlotBytes(m, role, n), SlotBytes(t, role, n);
            forall k :: FRAME_HEADER_SIZE <= k < SlotSize(role) ==>
              b[k] == a[k] || (k < FRAME_HEADER_SIZE + |content| && b[k] == content[k - FRAME_HEADER_SIZE])
  {
    SlotsAreDisjoint(role, n, role, n);
  }

  lemma AgreeingSlot(a: seq<byte>, b: seq<byte>, f: Stored, content: seq<byte>)
    requires FRAME_HEADER_SIZE <= |a| == |b| && FrameOf(a) == Some(f) && Agree(content, f.content)
    requires a[..FRAME_HEADER_SIZE] == b[..FRAME_HEADER_SIZE]
    requires forall k :: FRAME_HEADER_SIZE <= k < |a| ==>
               b[k] == a[k] || (k < FRAME_HEADER_SIZE + |content| && b[k] == content[k - FRAME_HEADER_SIZE])
    ensures FrameOf(b) == Some(f)
  {
    hide FrameOf, HeaderOf, Parse, Sum;
    SameHeaderSlot(a, b, f);
    FrameFits(a, f);
    forall k | 0 <= k < |f.content| ensures Counted(b, |f.content|)[k] == f.content[k] {
      assert Counted(a, |f.content|)[k] == a[FRAME_HEADER_SIZE + k];
    }
  }

  lemma AgreeingPayloadKeepsFrame(m: Image, t: Image, role: Role, f: Stored, n: nat, content: seq<byte>)
    requires Holds(m, role, f) && |content| <= MaxContent(role) && n % 2 == f.generation % 2
    requires Agree(content, f.content) && Torn(m, t, role, n, content)
    ensures Holds(t, role, f)
  {
    hide FrameOf, HeaderOf, Parse, SlotBytes, Torn, Agree, SlotOffset, SlotSize, MaxContent, Sum;
    SameParity(m, role, n, f.generation);
    SameParity(t, role, n, f.generation);
    TornSlots(m, t, role, n, content, role, f.generation + 1);
    TornOwnSlot(m, t, role, n, content);
    SlotsAreDisjoint(role, n, role, n);
    AgreeingSlot(SlotBytes(m, role, n), SlotBytes(t, role, n), f, content);
  }

  lemma CorruptSlot(a: seq<byte>, b: seq<byte>, f: Stored, i: nat)
    requires FRAME_HEADER_SIZE <= |a| == |b| && FrameOf(a) == Some(f)
    requires i < |f.content| && FRAME_HEADER_SIZE + i < |a| && DifferOnlyAt(a, b, FRAME_HEADER_SIZE + i)
    ensures FrameOf(b) == None
  {
    hide FrameOf, HeaderOf, Parse, Sum;
    assert a[..FRAME_HEADER_SIZE] == b[..FRAME_HEADER_SIZE];
    SameHeaderSlot(a, b, f);
    FrameFits(a, f);
    CountedDiffers(a, b, |f.content|, i);
    OneByteChangesSum(Counted(a, |f.content|), Counted(b, |f.content|), i);
  }

  lemma CountedDiffers(a: seq<byte>, b: seq<byte>, n: nat, i: nat)
    requires FRAME_HEADER_SIZE + n <= |a| == |b| && i < n && DifferOnlyAt(a, b, FRAME_HEADER_SIZE + i)
    ensures DifferOnlyAt(Counted(a, n), Counted(b, n), i)
  {
    var x, y := Counted(a, n), Counted(b, n);
    assert forall k :: 0 <= k < n ==> x[k] == a[FRAME_HEADER_SIZE + k] && y[k] == b[FRAME_HEADER_SIZE + k];
  }

  /** One byte of the payload over the live frame is enough to lose it. */
  lemma OneByteLosesFrame(m: Image, role: Role, f: Stored, n: nat, content: seq<byte>, i: nat)
    requires Holds(m, role, f) && |content| <= MaxContent(role) && n % 2 == f.generation % 2
    requires i < |content| && i < |f.content| && content[i] != f.content[i]
    ensures exists t: Image :: Torn(m, t, role, n, content) && Latest(t, role) != Some(f)
  {
    hide FrameOf, HeaderOf, Parse, SlotBytes, Torn, SlotOffset, SlotSize, Sum, Latest, Counted;
    SameParity(m, role, n, f.generation);
    FrameFits(SlotBytes(m, role, n), f);
    var t := Scratch(m, role, n, content, i);
    SameParity(t, role, n, f.generation);
    TornSlots(m, t, role, n, content, role, f.generation + 1);
    SlotsAreDisjoint(role, n, role, n);
    LiveByte(SlotBytes(m, role, n), f, i);
    CorruptSlot(SlotBytes(m, role, n), SlotBytes(t, role, n), f, i);
    LostFrame(m, t, role, f);
  }

  lemma LiveByte(a: seq<byte>, f: Stored, i: nat)
    requires i < |f.content| && FRAME_HEADER_SIZE + |f.content| <= |a| && Counted(a, |f.content|) == f.content
    ensures a[FRAME_HEADER_SIZE + i] == f.content[i]
  {
  }

  /** Byte i of the payload written, nothing else. */
  lemma Scratch(m: Image, role: Role, n: nat, content: seq<byte>, i: nat) returns (t: Image)
    requires |content| <= MaxContent(role) && i < |content|
    ensures Torn(m, t, role, n, content)
    ensures SlotBytes(t, role, n) == SlotBytes(m, role, n)[FRAME_HEADER_SIZE + i := content[i]]
  {
    SlotsAreDisjoint(role, n, role, n);
    t := m[SlotOffset(role, n) + FRAME_HEADER_SIZE + i := content[i]];
  }

  lemma LostFrame(m: Image, t: Image, role: Role, f: Stored)
    requires Holds(m, role, f) && FrameAt(t, role, f.generation) == None
    requires SlotBytes(t, role, f.generation + 1) == SlotBytes(m, role, f.generation + 1)
    ensures Latest(t, role) != Some(f)
  {
    hide HeaderOf, FrameOf, SlotBytes;
    SameSlot(t, role, f.generation);
    FrameHasHeader(SlotBytes(t, role, f.generation + 1));
  }

  /**
   Exactly when a publication is crash-safe: its slot is not the live frame's, or
   its payload agrees with the live one as far as both go.
   */
  lemma CrashSafeIff(m: Image, role: Role, f: Stored, n: nat, content: seq<byte>)
    requires Holds(m, role, f) && |content| <= MaxContent(role)
    ensures CrashSafe(m, role, f, n, content) <==> n % 2 != f.generation % 2 || Agree(content, f.content)
  {
    hide Holds, Latest, Torn;
    if n % 2 != f.generation % 2 || Agree(content, f.content) {
      forall t: Image | Torn(m, t, role, n, content) ensures Latest(t, role) == Some(f) {
        if n % 2 != f.generation % 2 {
          TornPayloadKeepsFrame(m, t, role, f, n, content);
        } else {
          AgreeingPayloadKeepsFrame(m, t, role, f, n, content);
          HoldsMeansLatest(t, role, f);
        }
      }
    } else {
      var i: nat :| i < |content| && i < |f.content| && content[i] != f.content[i];
      OneByteLosesFrame(m, role, f, n, content, i);
    }
  }

  // ------------------------------------------------------- publishing in turn

  /** The publisher's next generation follows the committed frame, or is the first. */
  predicate InStep(m: Image, role: Role, next: nat, last: Option<Stored>) {
    match last
    case None => Blank(m, role) && next == 1
    case Some(f) => Holds(m, role, f) && next == f.generation + 1
  }

  /** A freshly created, zeroed region: the first publisher is in step on both lanes. */
  lemma FreshRegionIsInStep(m: Image, role: Role)
    requires forall k :: 0 <= k < REGION_SIZE ==> m[k] == 0
    ensures InStep(m, role, 1, None) && Seed(m, role) == 1 && Latest(m, role) == None
  {
    ZeroSlotIsEmpty(SlotBytes(m, role, 0));
    ZeroSlotIsEmpty(SlotBytes(m, role, 1));
    hide HeaderOf, SlotBytes;
  }

  lemma ZeroSlotIsEmpty(slot: seq<byte>)
    requires |slot| >= FRAME_HEADER_SIZE && forall k :: 0 <= k < |slot| ==> slot[k] == 0
    ensures HeaderOf(slot) == None
  {
    var b := slot[..FRAME_HEADER_SIZE];
    hide Sum, Parse;
    assert b[0..4] == [0, 0, 0, 0];
    assert Decode([0, 0, 0, 0]) == 0 by {
      assert [0, 0, 0, 0][1..] == [0, 0, 0] && [0, 0, 0][1..] == [0, 0] && [0, 0][1..] == [0] && [0][1..] == [];
      assert Decode([]) == 0;
      assert Decode([0]) == 0;
      assert Decode([0, 0]) == 0;
      assert Decode([0, 0, 0]) == 0;
    }
    NoMagicNoHeader(b, |slot|);
  }

  lemma NoMagicNoHeader(b: seq<byte>, slotSize: nat)
    requires slotSize >= FRAME_HEADER_SIZE && |b| == FRAME_HEADER_SIZE && Decode(b[0..4]) != FRAME_MAGIC
    ensures Parse(b, slotSize) == None
  {
    hide Sum, Decode;
  }

  lemma OlderThanNext(m: Image, role: Role, next: nat, last: Option<Stored>)
    requires InStep(m, role, next, last)
    ensures OtherIsOlder(m, role, next)
  {
    hide FrameOf, HeaderOf, SlotBytes;
    SameSlot(m, role, next);
    if last.Some? {
      SameParity(m, role, next + 1, last.value.generation);
      FrameHasHeader(SlotBytes(m, role, next + 1));
    }
  }

  /** While it is in step, every publication is crash-safe and then visible, and it stays in step. */
  lemma PublicationInStep(m: Image, role: Role, next: nat, last: Option<Stored>, content: seq<byte>)
    requires InStep(m, role, next, last) && next < U64 && |content| <= MaxContent(role)
    ensures forall t: Image :: Torn(m, t, role, next, content) ==> Latest(t, role) == last && InStep(t, role, next, last)
    ensures InStep(Written(m, role, next, content), role, next + 1, Some(Stored(next, content)))
    ensures Latest(Written(m, role, next, content), role) == Some(Stored(next, content))
  {
    hide Latest, Torn, HeaderOf, FrameOf, SlotBytes, Written, MaxContent, SlotSize, SlotOffset, Sum;
    OlderThanNext(m, role, next, last);
    WrittenHolds(m, role, next, content);
    hide Holds;
    forall t: Image | Torn(m, t, role, next, content)
      ensures Latest(t, role) == last && InStep(t, role, next, last)
    {
      if last.Some? {
        TornPayloadKeepsFrame(m, t, role, last.value, next, content);
      } else {
        TornBlank(m, t, role, next, content);
      }
    }
  }

  lemma TornBlank(m: Image, t: Image, role: Role, n: nat, content: seq<byte>)
    requires Blank(m, role) && |content| <= MaxContent(role) && Torn(m, t, role, n, content)
    ensures Blank(t, role) && Latest(t, role) == None
  {
    TornSlots(m, t, role, n, content, role, 0);
    TornSlots(m, t, role, n, content, role, 1);
    SameSlot(m, role, n);
    SameSlot(t, role, n);
    hide Parse, SlotBytes, Torn;
  }

  /** seed_next_generation. */
  function Seed(m: Image, role: Role): nat {
    var latest := LatestGeneration(m, role).GetOr(0);
    if latest >= MAX_GENERATION then MAX_GENERATION else latest + 1
  }

  /** A publisher that reattaches, even in the middle of a dead one's write, is in step again. */
  lemma ReattachIsInStep(m: Image, role: Role, last: Option<Stored>)
    requires if last.Some? then Holds(m, role, last.value) && last.value.generation < MAX_GENERATION else Blank(m, role)
    ensures InStep(m, role, Seed(m, role), last)
  {
    if last.Some? {
      hide Holds, LatestGeneration, Latest;
      HoldsMeansLatest(m, role, last.value);
    }
  }

  /**
   A frame that is too large still consumes its generation, so the next one
   lands on the live slot: a crash inside it can lose the committed frame,
   unless the payloads agree; a completed write restores the order.
   */
  lemma RejectedFrameCostsASlot(m: Image, role: Role, f: Stored, content: seq<byte>)
    requires InStep(m, role, f.generation + 1, Some(f)) && |content| <= MaxContent(role) && f.generation + 2 < U64
    ensures CrashSafe(m, role, f, f.generation + 2, content) <==> Agree(content, f.content)
    ensures InStep(Written(m, role, f.generation + 2, content), role, f.generation + 3, Some(Stored(f.generation + 2, content)))
  {
    hide Latest, FrameOf, HeaderOf, SlotBytes, Written, CrashSafe, MaxContent, SlotSize, SlotOffset, Sum;
    CrashSafeIff(m, role, f, f.generation + 2, content);
    SameParity(m, role, f.generation + 1, f.generation + 3);
    WrittenHolds(m, role, f.generation + 2, content);
  }

  /** At the last generation the seed saturates onto the live slot itself. */
  lemma LastGenerationIsNotCrashSafe(m: Image, role: Role, f: Stored, content: seq<byte>)
    requires Holds(m, role, f) && f.generation == MAX_GENERATION && |content| <= MaxContent(role)
    ensures Seed(m, role) == f.generation
    ensures CrashSafe(m, role, f, Seed(m, role), content) <==> Agree(content, f.content)
  {
    hide Holds, LatestGeneration, Latest, CrashSafe;
    HoldsMeansLatest(m, role, f);
    CrashSafeIff(m, role, f, Seed(m, role), content);
  }

  /** The two stores of a write, in order. */
  lemma WrittenIs(m: Image, role: Role, g: nat, content: seq<byte>)
    requires |content| <= MaxContent(role)
    ensures SlotOffset(role, g) + FRAME_HEADER_SIZE + |content| <= REGION_SIZE
    ensures Written(m, role, g, content)
            == Overlay(Overlay(m, SlotOffset(role, g) + FRAME_HEADER_SIZE, content), SlotOffset(role, g),
                       HeaderBytes(Header(g, |content|, Sum(content))))
  {
    SlotsAreDisjoint(role, g, role, g);
    hide Overlay, HeaderBytes, Sum;
  }

  // ------------------------------------------------- reading during a publication

  /** One try of read_frame: header, content and header again, each as the image was at that moment. */
  function TryAcross(a: Image, b: Image, c: Image, role: Role, slot: nat): Option<Stored> {
    ParsedFits(SlotBytes(a, role, slot)[..FRAME_HEADER_SIZE], SlotSize(role));
    var h := HeaderAt(a, role, slot);
    if h.None? then None
    else
      var content := SlotBytes(b, role, slot)[FRAME_HEADER_SIZE..FRAME_HEADER_SIZE + h.value.length];
      if SlotBytes(a, role, slot)[..FRAME_HEADER_SIZE] == SlotBytes(c, role, slot)[..FRAME_HEADER_SIZE]
         && Sum(content) == h.value.sum
      then Some(Stored(h.value.generation, content)) else None
  }

  /** One publication in step: from image `before`, whose frame is `last`, to generation `next`. */
  datatype Scene = Scene(before: Image, role: Role, last: Option<Stored>, next: nat, content: seq<byte>)
  {
    predicate Valid() {
      InStep(before, role, next, last) && next < U64 && |content| <= MaxContent(role)
    }

    function After(): Image
      requires Valid()
    {
      Written(before, role, next, content)
    }

    function New(): Stored { Stored(next, content) }

    /** An image during it: the payload cut anywhere, or all of it. */
    ghost predicate Shows(v: Image)
      requires Valid()
    {
      Torn(before, v, role, next, content) || v == After()
    }
  }

  lemma SceneSlots(s: Scene, v: Image, slot: nat)
    requires s.Valid() && s.Shows(v)
    ensures slot % 2 != s.next % 2 ==>
              SlotBytes(v, s.role, slot) == SlotBytes(s.before, s.role, slot) && FrameAt(v, s.role, slot) == s.last
    ensures slot % 2 == s.next % 2 && v != s.After() ==> HeaderAt(v, s.role, slot) == HeaderAt(s.before, s.role, s.next)
    ensures slot % 2 == s.next % 2 && v == s.After() ==> FrameAt(v, s.role, slot) == Some(s.New())
  {
    hide Torn, FrameOf, HeaderOf, SlotBytes, Written, MaxContent, SlotSize, SlotOffset, Sum;
    if slot % 2 != s.next % 2 {
      if v == s.After() {
        WrittenSlots(s.before, s.role, s.next, s.content, s.role, slot);
      } else {
        TornSlots(s.before, v, s.role, s.next, s.content, s.role, slot);
      }
      SlotOfLast(s, slot);
    } else if v == s.After() {
      OlderThanNext(s.before, s.role, s.next, s.last);
      WrittenHolds(s.before, s.role, s.next, s.content);
      SameParity(v, s.role, slot, s.next);
    } else {
      SlotsAreDisjoint(s.role, slot, s.role, slot);
      TornSlots(s.before, v, s.role, s.next, s.content, s.role, slot);
      SameParity(v, s.role, slot, s.next);
      SameParity(s.before, s.role, slot, s.next);
      HeaderFromFront(SlotBytes(v, s.role, s.next), SlotBytes(s.before, s.role, s.next));
    }
  }

  lemma HeaderFromFront(a: seq<byte>, b: seq<byte>)
    requires FRAME_HEADER_SIZE <= |a| == |b| && a[..FRAME_HEADER_SIZE] == b[..FRAME_HEADER_SIZE]
    ensures HeaderOf(a) == HeaderOf(b)
  {
  }

  lemma SlotOfLast(s: Scene, slot: nat)
    requires s.Valid() && slot % 2 != s.next % 2
    ensures FrameAt(s.before, s.role, slot) == s.last
  {
    hide FrameOf, HeaderOf, SlotBytes, MaxContent, SlotSize, SlotOffset, Sum;
    if s.last.Some? {
      SameParity(s.before, s.role, slot, s.last.value.generation);
    } else {
      SlotsAreDisjoint(s.role, slot, s.role, slot);
      SameSlot(s.before, s.role, slot);
      FrameHasHeader(SlotBytes(s.before, s.role, slot));
    }
  }

  /** What a reader may get from one slot during a publication. */
  predicate SlotOutcome(s: Scene, slot: nat, frame: Option<Stored>) {
    if slot % 2 != s.next % 2 then frame == s.last
    else frame == Some(s.New()) || Outdated(s, frame)
  }

  /** Nothing, or an older frame than the committed one. */
  predicate Outdated(s: Scene, frame: Option<Stored>) {
    frame.None? || (s.last.Some? && frame.value.generation < s.last.value.generation)
  }

  /**
   Whatever the three reads of one try see of a publication, the other slot gives
   the committed frame, and the slot being written gives its complete new frame,
   which it must once it is committed, or nothing newer than the committed one.
   */
  lemma TryDuringPublication(s: Scene, a: Image, b: Image, c: Image, slot: nat)
    requires s.Valid() && s.Shows(a) && s.Shows(b) && s.Shows(c)
    requires (a == s.After() ==> b == s.After()) && (b == s.After() ==> c == s.After())
    ensures var frame := TryAcross(a, b, c, s.role, slot);
            && SlotOutcome(s, slot, frame)
            && (a == s.After() && slot % 2 == s.next % 2 ==> frame == Some(s.New()))
            && (a != s.After() && slot % 2 == s.next % 2 ==> Outdated(s, frame))
  {
    SceneSlots(s, a, slot);
    SceneSlots(s, b, slot);
    SceneSlots(s, c, slot);
    hide Torn, HeaderOf, SlotBytes, Written, MaxContent, SlotSize, SlotOffset, Sum, Parse;
    if slot % 2 != s.next % 2 || a == s.After() {
      StillTry(a, b, c, s.role, slot);
    } else {
      OldHeader(s);
    }
  }

  lemma StillTry(a: Image, b: Image, c: Image, role: Role, slot: nat)
    requires SlotBytes(a, role, slot) == SlotBytes(b, role, slot) == SlotBytes(c, role, slot)
    ensures TryAcross(a, b, c, role, slot) == FrameAt(a, role, slot)
  {
    hide Parse, Sum, SlotBytes;
  }

  lemma OldHeader(s: Scene)
    requires s.Valid()
    ensures var h := HeaderAt(s.before, s.role, s.next);
            h.Some? ==> s.last.Some? && h.value.generation < s.last.value.generation
  {
    hide FrameOf, HeaderOf, SlotBytes, MaxContent, SlotSize, SlotOffset, Sum;
    SameSlot(s.before, s.role, s.next);
    if s.last.Some? {
      SameParity(s.before, s.role, s.next, s.last.value.generation + 1);
    }
  }

  /** PlatformIpc as a reader, while the peer writes: each read of the mapping sees the next image. */
  class Reader {
    const views: seq<Image>
    var time: nat

    constructor (images: seq<Image>)
      requires images != []
      ensures views == images && time == 0
    {
      views, time := images, 0;
    }

    function View(k: nat): Image
      requires views != []
    {
      views[if k < |views| then k else |views| - 1]
    }

    /** The images are those of one publication, in time order. */
    ghost predicate Watches(s: Scene) {
      && views != [] && s.Valid()
      && (forall k: nat :: s.Shows(View(k)))
      && (forall i: nat, j: nat :: i <= j && View(i) == s.After() ==> View(j) == s.After())
    }

    method ReadMemory(at: nat, length: nat) returns (data: seq<byte>)
      requires views != [] && at + length <= REGION_SIZE
      modifies this`time
      ensures time == old(time) + 1 && data == View(old(time))[at..at + length]
    {
      data := View(time)[at..at + length];
      time := time + 1;
    }

    /** One try of read_frame: header, content, header again. */
    method TryFrame(role: Role, slot: nat) returns (frame: Option<Stored>)
      requires views != []
      modifies this`time
      ensures old(time) < time <= old(time) + 3
      ensures frame == TryAcross(View(old(time)), View(old(time) + 1), View(old(time) + 2), role, slot)
    {
      SlotsAreDisjoint(role, slot, role, slot);
      var at, size := SlotOffset(role, slot), SlotSize(role);
      hide Parse, Sum, SlotOffset, SlotSize, MaxContent;
      ghost var a, b, c := View(time), View(time + 1), View(time + 2);
      var first := ReadMemory(at, FRAME_HEADER_SIZE);
      SubSlice(a, at, size, 0, FRAME_HEADER_SIZE);
      var header := Parse(first, size);
      if header.None? {
        return None;
      }
      ParsedFits(first, size);
      var content := ReadMemory(at + FRAME_HEADER_SIZE, header.value.length);
      SubSlice(b, at, size, FRAME_HEADER_SIZE, FRAME_HEADER_SIZE + header.value.length);
      var second := ReadMemory(at, FRAME_HEADER_SIZE);
      SubSlice(c, at, size, 0, FRAME_HEADER_SIZE);
      var sum := ComputeSum(content);
      return if first == second && sum == header.value.sum then Some(Stored(header.value.generation, content)) else None;
    }

    /**
     What reading one slot from one moment to another may give: on an unchanging
     image its frame; during a publication an outcome of that slot, the new frame if
     it was there from the start, and no newer one than before if it never was.
     */
    ghost predicate SlotRead(s: Scene, role: Role, slot: nat, from: nat, to: nat, frame: Option<Stored>) {
      && from < to && views != []
      && (|views| == 1 ==> frame == FrameAt(views[0], role, slot))
      && (Watches(s) && role == s.role ==>
            && SlotOutcome(s, slot, frame)
            && (slot % 2 == s.next % 2 && View(from) == s.After() ==> frame == Some(s.New()))
            && (slot % 2 == s.next % 2 && View(to - 1) != s.After() ==> Outdated(s, frame)))
    }

    /** And reading the lane: the old frame or the complete new one, nothing else. */
    ghost predicate LaneRead(s: Scene, role: Role, from: nat, to: nat, latest: Option<Stored>) {
      && from < to && views != []
      && (|views| == 1 ==> latest == Latest(views[0], role))
      && (Watches(s) && role == s.role ==>
            && (latest == s.last || latest == Some(s.New()))
            && (View(from) == s.After() ==> latest == Some(s.New()))
            && (View(to - 1) != s.After() ==> latest == s.last))
    }

    /** read_frame: up to three tries, against a mapping that may change between any two reads. */
    method ReadFrame(role: Role, slot: nat, ghost s: Scene) returns (frame: Option<Stored>)
      requires views != []
      modifies this`time
      ensures SlotRead(s, role, slot, old(time), time, frame)
    {
      hide TryAcross, View, SlotRead;
      frame := None;
      for try := 0 to 3
        invariant frame == None && (try == 0 ==> time == old(time))
        invariant try > 0 ==> SlotRead(s, role, slot, old(time), time, None)
      {
        ghost var t := time;
        frame := TryFrame(role, slot);
        TriedAt(s, role, slot, t, time);
        if try > 0 {
          KeepTrying(s, role, slot, old(time), t, time, frame);
        }
        if frame.Some? {
          return;
        }
      }
    }

    /** read_lane: the newest frame of the two slots, read one after the other. */
    method ReadLane(role: Role, ghost s: Scene) returns (latest: Option<Stored>)
      requires views != []
      modifies this`time
      ensures LaneRead(s, role, old(time), time, latest)
    {
      hide View, SlotRead, LaneRead;
      latest := None;
      ghost var t := time;
      for index := 0 to 2
        invariant index == 0 ==> latest == None && t == time == old(time)
        invariant index == 1 ==> t == time && SlotRead(s, role, 0, old(time), t, latest)
        invariant index == 2 ==> LaneRead(s, role, old(time), time, latest)
      {
        ghost var before := latest;
        var frame := ReadFrame(role, index, s);
        if frame.Some? && (latest.None? || frame.value.generation > latest.value.generation) {
          latest := frame;
        }
        if index == 1 {
          BothSlots(s, role, old(time), t, time, before, frame);
        }
        t := time;
      }
    }

    /** What a try at time t can give. */
    lemma TriedAt(s: Scene, role: Role, slot: nat, t: nat, end: nat)
      requires views != [] && t < end <= t + 3
      ensures SlotRead(s, role, slot, t, end, TryAcross(View(t), View(t + 1), View(t + 2), role, slot))
    {
      hide TryAcross, FrameAt, SlotOutcome, Outdated, InStep;
      if |views| == 1 {
        StillTry(views[0], views[0], views[0], role, slot);
      }
      if Watches(s) && role == s.role {
        TryDuringPublication(s, View(t), View(t + 1), View(t + 2), slot);
      }
    }

    lemma KeepTrying(s: Scene, role: Role, slot: nat, from: nat, mid: nat, to: nat, frame: Option<Stored>)
      requires SlotRead(s, role, slot, from, mid, None) && SlotRead(s, role, slot, mid, to, frame)
      ensures SlotRead(s, role, slot, from, to, frame)
    {
      hide FrameAt, InStep;
    }

    lemma BothSlots(s: Scene, role: Role, from: nat, mid: nat, to: nat, first: Option<Stored>, second: Option<Stored>)
      requires SlotRead(s, role, 0, from, mid, first) && SlotRead(s, role, 1, mid, to, second)
      ensures LaneRead(s, role, from, to, Later(first, second))
    {
      hide FrameAt, Torn, Holds, MaxContent, Blank;
    }
  }

  // --------------------------------------------------------- the mapped region

  /** PlatformIpc over one mapping of the region. */
  class Store {
    const memory: array<byte>
    const role: Role
    var nextGeneration: nat

    ghost predicate Valid()
      reads this
    {
      memory.Length == REGION_SIZE && nextGeneration < U64
    }

    function Bytes(): Image
      requires memory.Length == REGION_SIZE
      reads memory
    {
      memory[..]
    }

    constructor (mapped: array<byte>, side: Role)
      requires mapped.Length == REGION_SIZE
      ensures Valid() && memory == mapped && role == side && nextGeneration == 1
    {
      memory, role, nextGeneration := mapped, side, 1;
    }

    /** Copies byte by byte; every intermediate image is a cut of the same write. */
    method WriteMemory(at: nat, data: seq<byte>)
      requires memory.Length == REGION_SIZE && at + |data| <= REGION_SIZE
      modifies memory
      ensures Bytes() == Overlay(old(Bytes()), at, data)
    {
      for i := 0 to |data|
        invariant forall k :: 0 <= k < i ==> memory[at + k] == data[k]
        invariant forall k :: 0 <= k < REGION_SIZE && !(at <= k < at + i) ==> memory[k] == old(memory[k])
      {
        memory[at + i] := data[i];
      }
      assert memory[at..at + |data|] == data;
      assert memory[..] == memory[..at] + memory[at..at + |data|] + memory[at + |data|..];
    }

    /** write_frame for this side's lane; false is FrameTooLarge. */
    method WriteFrame(generation: nat, content: seq<byte>) returns (ok: bool)
      requires Valid()
      modifies memory
      ensures ok == (|content| <= MaxContent(role))
      ensures Bytes() == if ok then Written(old(Bytes()), role, generation, content) else old(Bytes())
    {
      hide Overlay, HeaderBytes, SlotOffset, MaxContent, Sum, Bytes, Written;
      if |content| > MaxContent(role) {
        return false;
      }
      WrittenIs(Bytes(), role, generation, content);
      WriteSlot(SlotOffset(role, generation), generation, content);
      return true;
    }

    /** Payload first, header last. */
    method WriteSlot(slot: nat, generation: nat, content: seq<byte>)
      requires memory.Length == REGION_SIZE && slot + FRAME_HEADER_SIZE + |content| <= REGION_SIZE
      modifies memory
      ensures Bytes() == Overlay(Overlay(old(Bytes()), slot + FRAME_HEADER_SIZE, content), slot,
                                 HeaderBytes(Header(generation, |content|, Sum(content))))
    {
      hide Overlay, HeaderBytes, Sum, Bytes;
      WriteMemory(slot + FRAME_HEADER_SIZE, content);
      var sum := ComputeSum(content);
      WriteMemory(slot, HeaderBytes(Header(generation, |content|, sum)));
    }

    /** publish: the generation is taken before the size is checked. */
    method Publish(content: seq<byte>) returns (ok: bool)
      requires Valid()
      modifies this`nextGeneration, memory
      ensures Valid() && nextGeneration == (old(nextGeneration) + 1) % U64
      ensures ok == (|content| <= MaxContent(role))
      ensures Bytes() == if ok then Written(old(Bytes()), role, old(nextGeneration), content) else old(Bytes())
    {
      var generation := nextGeneration;
      nextGeneration := (nextGeneration + 1) % U64;
      ok := WriteFrame(generation, content);
    }

    method ReadMemory(at: nat, length: nat) returns (data: seq<byte>)
      requires Valid() && at + length <= REGION_SIZE
      ensures data == Bytes()[at..at + length]
    {
      data := memory[at..at + length];
    }

    method ReadHeader(at: nat, size: nat) returns (first: seq<byte>, header: Option<Header>)
      requires Valid() && at + size <= REGION_SIZE && size >= FRAME_HEADER_SIZE
      ensures first == Bytes()[at..at + size][..FRAME_HEADER_SIZE] && header == HeaderOf(Bytes()[at..at + size])
    {
      first := ReadMemory(at, FRAME_HEADER_SIZE);
      SubSlice(Bytes(), at, size, 0, FRAME_HEADER_SIZE);
      header := Parse(first, size);
    }

    method SlotHeader(side: Role, slot: nat) returns (header: Option<Header>)
      requires Valid()
      ensures header == HeaderAt(Bytes(), side, slot)
    {
      hide HeaderOf;
      SlotsAreDisjoint(side, slot, side, slot);
      var _, found := ReadHeader(SlotOffset(side, slot), SlotSize(side));
      header := found;
    }

    /** latest_generation. */
    method LatestHeader(side: Role) returns (latest: Option<nat>)
      requires Valid()
      ensures latest == LatestGeneration(Bytes(), side)
    {
      hide HeaderAt, Bytes;
      latest := None;
      for index := 0 to 2
        invariant index == 0 ==> latest == None
        invariant index == 1 ==> latest == Newest(HeaderAt(Bytes(), side, 0), None)
        invariant index == 2 ==> latest == LatestGeneration(Bytes(), side)
      {
        var header := SlotHeader(side, index);
        if header.Some? && (latest.None? || header.value.generation > latest.value) {
          latest := Some(header.value.generation);
        }
      }
    }

    /** seed_next_generation, when a new process attaches to the region. */
    method SeedNextGeneration()
      requires Valid() && LatestGeneration(Bytes(), role).GetOr(0) < U64
      modifies this`nextGeneration
      ensures Valid() && nextGeneration == Seed(Bytes(), role)
    {
      var latest := LatestHeader(role);
      var value := latest.GetOr(0);
      nextGeneration := if value >= MAX_GENERATION then MAX_GENERATION else value + 1;
    }
  }
}

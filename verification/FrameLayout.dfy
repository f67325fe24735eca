/**
 The frame store of FrameStore, byte by byte: where the slots are, and what a
 write leaves at which position of the region.
 */
module FrameLayout {
  import opened Wrappers
  import opened Checksum
  import opened FrameStore

  /** Even generations in the first half of their lane, odd ones in the second; the UI lane first. */
  lemma LayoutLaw(g: nat)
    ensures SlotOffset(Ui, g) == 4096 + 524288 * (g % 2) && SlotSize(Ui) == 524288 && MaxContent(Ui) == 524256
    ensures SlotOffset(Vpn, g) == 1052672 + 3667968 * (g % 2) && SlotSize(Vpn) == 3667968 && MaxContent(Vpn) == 3667936
    ensures REGION_SIZE == 8388608 && FRAME_HEADER_SIZE == 32 && MAX_GENERATION == 0xFFFF_FFFF_FFFF_FFFF
  {
  }

  /** The number in n bytes from `at`, least significant first. */
  function NumberAt(m: seq<byte>, at: nat, n: nat): nat
    requires at + n <= |m|
  {
    Decode(m[at..at + n])
  }

  /** A committed frame's header: magic, version, generation, length, the content's checksum, the header's own, and zeros. */
  predicate Commits(m: seq<byte>, at: nat, g: nat, content: seq<byte>)
    requires at + 32 <= |m|
  {
    && NumberAt(m, at, 4) == 0x5041_5753 && NumberAt(m, at + 4, 4) == 2 && NumberAt(m, at + 8, 8) == g
    && NumberAt(m, at + 16, 4) == |content| && NumberAt(m, at + 20, 4) == Sum(content)
    && NumberAt(m, at + 24, 4) == Sum(m[at..at + 24]) && m[at + 28] == m[at + 29] == m[at + 30] == m[at + 31] == 0
  }

  lemma HeaderCommits(g: nat, content: seq<byte>)
    requires g < 0x1_0000_0000_0000_0000 && |content| + 32 < 0x1_0000_0000
    ensures Commits(HeaderBytes(HeaderFor(g, content)), 0, g, content)
  {
    SumRange(content);
    var h := HeaderFor(g, content);
    var b := HeaderBytes(h);
    ParseInvertsHeader(h, |content| + 32);
    LastBytes(h);
    hide Decode, Sum, HeaderBytes;
    assert b[..24] == b[0..24];
  }

  lemma LastBytes(h: Header)
    ensures HeaderBytes(h)[28] == HeaderBytes(h)[29] == HeaderBytes(h)[30] == HeaderBytes(h)[31] == 0
  {
    assert Encode(0, 4) == [0, 0, 0, 0] by {
      assert Encode(0, 2) == [0, 0];
    }
    hide Encode, Sum;
  }

  lemma SamePart(m: seq<byte>, at: nat, h: seq<byte>, i: nat, n: nat)
    requires at + 32 <= |m| && m[at..at + 32] == h && i + n <= 32
    ensures m[at + i..at + i + n] == h[i..i + n]
  {
    var a, b := m[at + i..at + i + n], h[i..i + n];
    forall k | 0 <= k < n ensures a[k] == b[k] {
      assert a[k] == m[at + (i + k)] && b[k] == h[i + k] == m[at..at + 32][i + k];
    }
    assert a == b;
  }

  /** The same header anywhere in the region. */
  lemma CommitsThere(m: seq<byte>, at: nat, h: seq<byte>, g: nat, content: seq<byte>)
    requires at + 32 <= |m| && |h| == 32 && m[at..at + 32] == h && Commits(h, 0, g, content)
    ensures Commits(m, at, g, content)
  {
    hide Decode, Sum;
    SamePart(m, at, h, 0, 4);
    SamePart(m, at, h, 4, 4);
    SamePart(m, at, h, 8, 8);
    SamePart(m, at, h, 16, 4);
    SamePart(m, at, h, 20, 4);
    SamePart(m, at, h, 24, 4);
    SamePart(m, at, h, 0, 24);
    assert h[28] == m[at..at + 32][28] && h[29] == m[at..at + 32][29] && h[30] == m[at..at + 32][30]
           && h[31] == m[at..at + 32][31];
  }

  lemma WrittenIs(m: Image, role: Role, g: nat, content: seq<byte>)
    requires |content| <= MaxContent(role)
    ensures var at := SlotOffset(role, g);
            && at + 32 + |content| <= REGION_SIZE
            && Written(m, role, g, content) == Overlay(Overlay(m, at + 32, content), at, HeaderBytes(HeaderFor(g, content)))
  {
    SlotsAreDisjoint(role, g, role, g);
    hide HeaderBytes, Overlay;
  }

  /** A write puts header and content into the slot of its generation and touches no other byte of the region. */
  lemma WriteLaw(m: Image, role: Role, g: nat, content: seq<byte>)
    requires |content| <= MaxContent(role) && g < 0x1_0000_0000_0000_0000
    ensures var (w, at) := (Written(m, role, g, content), SlotOffset(role, g));
            && at + 32 + |content| <= 8388608 && Commits(w, at, g, content) && w[at + 32..at + 32 + |content|] == content
            && forall k :: 0 <= k < 8388608 && !(at <= k < at + 32 + |content|) ==> w[k] == m[k]
  {
    WrittenIs(m, role, g, content);
    LayoutLaw(g);
    hide SlotOffset, SlotSize, HeaderBytes, HeaderFor, Commits, Overlay, Written;
    var (w, at, h) := (Written(m, role, g, content), SlotOffset(role, g), HeaderBytes(HeaderFor(g, content)));
    HeaderCommits(g, content);
    WriteBytes(m, at, h, content);
    CommitsThere(w, at, h, g, content);
  }

  lemma WriteBytes(m: Image, at: nat, h: seq<byte>, content: seq<byte>)
    requires |h| == 32 && at + 32 + |content| <= REGION_SIZE
    ensures var w := Overlay(Overlay(m, at + 32, content), at, h);
            && w[at..at + 32] == h && w[at + 32..at + 32 + |content|] == content
            && forall k :: 0 <= k < REGION_SIZE && !(at <= k < at + 32 + |content|) ==> w[k] == m[k]
  {
    var p := Overlay(m, at + 32, content);
    var w := Overlay(p, at, h);
    forall k | 0 <= k < |content| ensures w[at + 32 + k] == content[k] {
      assert w[at + 32 + k] == p[at + 32 + k];
    }
  }

  /** Slot bytes at `at` that read as a frame: the four checks, and the content the header says. */
  predicate ReadsAs(m: seq<byte>, at: nat, f: Stored)
    requires at + 32 + |f.content| <= |m|
  {
    && NumberAt(m, at, 4) == 0x5041_5753 && NumberAt(m, at + 4, 4) == 2 && NumberAt(m, at + 8, 8) == f.generation
    && NumberAt(m, at + 16, 4) == |f.content| && m[at + 32..at + 32 + |f.content|] == f.content
    && NumberAt(m, at + 20, 4) == Sum(f.content) && NumberAt(m, at + 24, 4) == Sum(m[at..at + 24])
  }

  /** A slot reads as a frame exactly when its bytes say so. */
  lemma ReadLaw(m: Image, role: Role, g: nat, f: Stored)
    ensures FrameAt(m, role, g) == Some(f) <==>
              |f.content| <= MaxContent(role) && SlotOffset(role, g) + 32 + |f.content| <= |m|
                  && ReadsAs(m, SlotOffset(role, g), f)
  {
    LayoutLaw(g);
    SlotsAreDisjoint(role, g, role, g);
    var (at, size) := (SlotOffset(role, g), SlotSize(role));
    hide SlotOffset, SlotSize, Sum, Decode;
    SlotReads(m, at, size, f);
  }

  lemma SlotReads(m: Image, at: nat, size: nat, f: Stored)
    requires 32 <= size && at + size <= REGION_SIZE
    ensures FrameOf(m[at..at + size]) == Some(f) <==> |f.content| + 32 <= size && ReadsAs(m, at, f)
  {
    hide Sum, Decode;
    var slot := m[at..at + size];
    var h := slot[..32];
    SubSlice(m, at, size, 0, 32);
    SamePart(m, at, h, 0, 4);
    SamePart(m, at, h, 4, 4);
    SamePart(m, at, h, 8, 8);
    SamePart(m, at, h, 16, 4);
    SamePart(m, at, h, 20, 4);
    SamePart(m, at, h, 24, 4);
    SamePart(m, at, h, 0, 24);
    assert h[0..24] == h[..24];
    var len := NumberAt(m, at + 16, 4);
    if len + 32 <= size {
      SubSlice(m, at, size, 32, 32 + len);
    }
    hide NumberAt;
  }

  /** A lane shows its newer readable frame, the first slot's if neither is newer. */
  lemma LatestLaw(m: Image, role: Role)
    ensures var (a, b, l) := (FrameAt(m, role, 0), FrameAt(m, role, 1), Latest(m, role));
            && (l == a || l == b) && (l.None? <==> a.None? && b.None?)
            && (a.Some? ==> l.value.generation >= a.value.generation) && (b.Some? ==> l.value.generation >= b.value.generation)
            && (a.Some? && b.Some? && a.value.generation == b.value.generation ==> l == a)
    ensures var (a, b, n) := (HeaderAt(m, role, 0), HeaderAt(m, role, 1), LatestGeneration(m, role));
            && (n.None? <==> a.None? && b.None?)
            && (n.Some? ==> (a.Some? && n.value == a.value.generation) || (b.Some? && n.value == b.value.generation))
            && (a.Some? ==> n.value >= a.value.generation) && (b.Some? ==> n.value >= b.value.generation)
  {
    hide FrameAt, HeaderAt;
  }
}

/** The byte-level header rewriter of the forwarding unit, against a decoder and
    encoder of the packet layout (section 5.1 of RFC 3550) and against the element
    list of the two extension formats (sections 4.2 and 4.3 of RFC 8285). */
module RtpHeader {
  import opened Words

  // ---------------------------------------------------------------- extension elements

  datatype Format = OneByte | TwoByte

  datatype Element = Element(id: u8, value: seq<u8>)

  /** What the first byte (or bytes) of the rest of an extension block announce. */
  datatype Head = Padding | Stop | Malformed | Item(id: u8, prefix: nat, size: nat)

  function HeadOf(format: Format, block: seq<u8>): (h: Head)
    requires block != []
    ensures h.Item? ==> 1 <= h.prefix && h.prefix + h.size <= |block|
  {
    match format
    case OneByte =>
      if block[0] == 0 then Padding
      else if block[0] / 16 == 15 then Stop
      else if 1 + (block[0] % 16 + 1) > |block| then Malformed
      else Item(block[0] / 16, 1, block[0] % 16 + 1)
    case TwoByte =>
      if block[0] == 0 then Padding
      else if |block| < 2 then Malformed
      else if 2 + block[1] > |block| then Malformed
      else Item(block[0], 2, block[1])
  }

  datatype Elements = Elements(items: seq<Element>, wellFormed: bool)

  /** The elements a receiver reads from a block, and whether it reads to its end. */
  function Walk(format: Format, block: seq<u8>): Elements
    decreases |block|
  {
    if block == [] then Elements([], true)
    else match HeadOf(format, block)
      case Padding => Walk(format, block[1..])
      case Stop => Elements([], true)
      case Malformed => Elements([], false)
      case Item(id, prefix, size) =>
        var rest := Walk(format, block[prefix + size..]);
        Elements([Element(id, block[prefix..prefix + size])] + rest.items, rest.wellFormed)
  }

  predicate HasElement(items: seq<Element>, id: u8)
  {
    exists k :: 0 <= k < |items| && items[k].id == id
  }

  function WithoutFirst(items: seq<Element>, id: u8): seq<Element>
  {
    if items == [] then []
    else if items[0].id == id then items[1..]
    else [items[0]] + WithoutFirst(items[1..], id)
  }

  function Zeros(n: nat): (z: seq<u8>)
    ensures |z| == n
  {
    seq(n, i => 0)
  }

  /** The block after the rewriter has cleared the first element with this id, or
      None when the rewriter meets a malformed element first. */
  function Clear(format: Format, block: seq<u8>, id: u8): (r: Option<seq<u8>>)
    ensures r.Some? ==> |r.value| == |block|
    decreases |block|
  {
    if block == [] then Some([])
    else match HeadOf(format, block)
      case Padding => Behind(block, 1, Clear(format, block[1..], id))
      case Stop => Some(block)
      case Malformed => None
      case Item(found, prefix, size) =>
        if found == id then Some(Zeros(prefix + size) + block[prefix + size..])
        else Behind(block, prefix + size, Clear(format, block[prefix + size..], id))
  }

  function Behind(block: seq<u8>, n: nat, rest: Option<seq<u8>>): Option<seq<u8>>
    requires n <= |block|
  {
    match rest
    case None => None
    case Some(tail) => Some(block[..n] + tail)
  }

  lemma {:induction false} WalkSkipsZeros(format: Format, n: nat, rest: seq<u8>)
    ensures Walk(format, Zeros(n) + rest) == Walk(format, rest)
  {
    if n == 0 {
      assert Zeros(0) + rest == rest;
    } else {
      var block := Zeros(n) + rest;
      assert block[0] == 0 && HeadOf(format, block) == Padding;
      assert block[1..] == Zeros(n - 1) + rest;
      WalkSkipsZeros(format, n - 1, rest);
    }
  }

  /** Clearing succeeds exactly when the block is well formed or the element comes
      before the defect, and a reader of the cleared block sees the original
      elements minus the first one with that id. */
  ghost predicate RemovesFirst(format: Format, block: seq<u8>, id: u8)
  {
    var walk := Walk(format, block);
    var cleared := Clear(format, block, id);
    && (cleared.Some? <==> walk.wellFormed || HasElement(walk.items, id))
    && (cleared.Some? ==>
          Walk(format, cleared.value) == Elements(WithoutFirst(walk.items, id), walk.wellFormed))
  }

  lemma HasElementAfter(first: Element, rest: seq<Element>, id: u8)
    ensures HasElement([first] + rest, id) <==> first.id == id || HasElement(rest, id)
  {
    var items := [first] + rest;
    if first.id == id {
      assert items[0].id == id;
    }
    if HasElement(rest, id) {
      var k :| 0 <= k < |rest| && rest[k].id == id;
      assert items[k + 1].id == id;
    }
    if HasElement(items, id) && first.id != id {
      var k :| 0 <= k < |items| && items[k].id == id;
      assert rest[k - 1].id == id;
    }
  }

  lemma ClearsThisItem(format: Format, block: seq<u8>, id: u8)
    requires block != [] && HeadOf(format, block).Item? && HeadOf(format, block).id == id
    ensures RemovesFirst(format, block, id)
  {
    var Item(_, prefix, size) := HeadOf(format, block);
    var n := prefix + size;
    var tail := Walk(format, block[n..]);
    HasElementAfter(Element(id, block[prefix..n]), tail.items, id);
    WalkSkipsZeros(format, n, block[n..]);
    assert ([Element(id, block[prefix..n])] + tail.items)[1..] == tail.items;
  }

  lemma WalkItem(format: Format, block: seq<u8>)
    requires block != [] && HeadOf(format, block).Item?
    ensures var Item(found, prefix, size) := HeadOf(format, block);
            var rest := Walk(format, block[prefix + size..]);
            Walk(format, block)
            == Elements([Element(found, block[prefix..prefix + size])] + rest.items, rest.wellFormed)
  {
  }

  lemma KeepsThisItem(format: Format, block: seq<u8>, id: u8)
    requires block != [] && HeadOf(format, block).Item? && HeadOf(format, block).id != id
    requires var h := HeadOf(format, block); RemovesFirst(format, block[h.prefix + h.size..], id)
    ensures RemovesFirst(format, block, id)
  {
    hide Walk, HeadOf, Clear, HasElement;
    var Item(found, prefix, size) := HeadOf(format, block);
    var n := prefix + size;
    var tail := Walk(format, block[n..]);
    var first := Element(found, block[prefix..n]);
    WalkItem(format, block);
    HasElementAfter(first, tail.items, id);
    assert ([first] + tail.items)[1..] == tail.items;
    ClearStep(format, block, id, n);
    var rest := Clear(format, block[n..], id);
    assert WithoutFirst([first] + tail.items, id) == [first] + WithoutFirst(tail.items, id);
    if rest.Some? {
      var cleared := block[..n] + rest.value;
      SameHead(format, block, cleared);
      WalkItem(format, cleared);
      assert cleared[n..] == rest.value;
    }
  }

  lemma ClearStep(format: Format, block: seq<u8>, id: u8, n: nat)
    requires block != []
    requires var h := HeadOf(format, block);
             (h.Padding? && n == 1) || (h.Item? && h.id != id && n == h.prefix + h.size)
    ensures n <= |block| && Clear(format, block, id) == Behind(block, n, Clear(format, block[n..], id))
  {
  }

  lemma SameHead(format: Format, block: seq<u8>, other: seq<u8>)
    requires block != [] && |other| == |block| && HeadOf(format, block).Item?
    requires var n := HeadOf(format, block).prefix + HeadOf(format, block).size; other[..n] == block[..n]
    ensures HeadOf(format, other) == HeadOf(format, block)
    ensures var Item(_, prefix, size) := HeadOf(format, block); other[prefix..prefix + size] == block[prefix..prefix + size]
  {
    var Item(_, prefix, size) := HeadOf(format, block);
    var n := prefix + size;
    assert other[0] == other[..n][0] == block[..n][0] == block[0];
    assert prefix == 2 ==> other[1] == other[..n][1] == block[..n][1] == block[1];
    SliceTail(other, 0, n, prefix);
    SliceTail(block, 0, n, prefix);
  }

  lemma {:induction false} ClearRemovesFirstElement(format: Format, block: seq<u8>, id: u8)
    ensures RemovesFirst(format, block, id)
    decreases |block|
  {
    if block != [] {
      match HeadOf(format, block) {
        case Padding =>
          ClearRemovesFirstElement(format, block[1..], id);
          var rest := Clear(format, block[1..], id);
          if rest.Some? {
            assert (block[..1] + rest.value)[1..] == rest.value;
          }
        case Stop =>
        case Malformed =>
        case Item(found, prefix, size) =>
          if found == id {
            ClearsThisItem(format, block, id);
          } else {
            ClearRemovesFirstElement(format, block[prefix + size..], id);
            KeepsThisItem(format, block, id);
          }
      }
    }
  }

  // ---------------------------------------------------------------- packets

  datatype Extension = Extension(profile: u16, block: seq<u8>)

  datatype Rtp = Rtp(
    markerAndType: u8,
    sequence: u16,
    timestamp: u32,
    ssrc: u32,
    csrcs: seq<u8>,
    extension: Option<Extension>,
    payload: seq<u8>,
    padding: seq<u8>)

  /** Packets the layout can carry: whole CSRC words, whole extension words, and
      padding whose last byte counts it. */
  predicate Encodable(r: Rtp)
  {
    && |r.csrcs| % 4 == 0 && |r.csrcs| / 4 < 16
    && (r.extension.Some? ==>
          |r.extension.value.block| % 4 == 0 && |r.extension.value.block| / 4 < 0x1_0000)
    && |r.padding| < 0x100
    && (r.padding != [] ==> r.padding[|r.padding| - 1] == |r.padding|)
  }

  function EncodeExtension(e: Option<Extension>): seq<u8>
    requires e.Some? ==> |e.value.block| / 4 < 0x1_0000
  {
    match e
    case None => []
    case Some(x) => U16Bytes(x.profile) + U16Bytes(|x.block| / 4) + x.block
  }

  function FirstByte(r: Rtp): u8
    requires Encodable(r)
  {
    128 + (if r.padding != [] then 32 else 0) + (if r.extension.Some? then 16 else 0) + |r.csrcs| / 4
  }

  function EncodeFixed(r: Rtp): (b: seq<u8>)
    requires Encodable(r)
    ensures |b| == 12
  {
    [FirstByte(r), r.markerAndType] + U16Bytes(r.sequence) + U32Bytes(r.timestamp) + U32Bytes(r.ssrc)
  }

  function Encode(r: Rtp): seq<u8>
    requires Encodable(r)
  {
    EncodeFixed(r) + r.csrcs + EncodeExtension(r.extension) + r.payload + r.padding
  }

  predicate HasPaddingBit(first: u8) { first / 32 % 2 == 1 }

  predicate HasExtensionBit(first: u8) { first / 16 % 2 == 1 }

  function CsrcEnd(first: u8): (end: nat)
    ensures 12 <= end <= 72
  {
    12 + first % 16 * 4
  }

  function StrippedFirst(first: u8): u8
  {
    if HasPaddingBit(first) then first - 32 else first
  }

  /** The offset of the first payload byte, when the header fits. */
  function PayloadBegin(p: seq<u8>): (r: Option<nat>)
    ensures r.Some? ==> 12 <= |p| && 12 <= CsrcEnd(p[0]) <= r.value <= |p|
    ensures r.Some? && HasExtensionBit(p[0]) ==>
              CsrcEnd(p[0]) + 4 <= r.value
              && r.value == CsrcEnd(p[0]) + 4 + U16At(p, CsrcEnd(p[0]) + 2) * 4
  {
    if |p| < 12 || p[0] / 64 != 2 then None
    else
      var end := CsrcEnd(p[0]);
      if end > |p| then None
      else if !HasExtensionBit(p[0]) then Some(end)
      else if end + 4 > |p| then None
      else if U16At(p, end + 2) * 4 > |p| - (end + 4) then None
      else Some(end + 4 + U16At(p, end + 2) * 4)
  }

  function ExtensionOf(p: seq<u8>): Option<Extension>
    requires PayloadBegin(p).Some?
  {
    if HasExtensionBit(p[0])
    then Some(Extension(U16At(p, CsrcEnd(p[0])), p[CsrcEnd(p[0]) + 4..PayloadBegin(p).value]))
    else None
  }

  predicate PaddingValid(p: seq<u8>, payloadBegin: nat)
    requires |p| >= 12 && payloadBegin <= |p|
  {
    HasPaddingBit(p[0]) ==>
      && payloadBegin < |p|
      && 1 <= p[|p| - 1] <= |p| - payloadBegin
  }

  function PayloadEnd(p: seq<u8>, payloadBegin: nat): (end: nat)
    requires |p| >= 12 && payloadBegin <= |p| && PaddingValid(p, payloadBegin)
    ensures payloadBegin <= end <= |p|
  {
    if HasPaddingBit(p[0]) then |p| - p[|p| - 1] else |p|
  }

  function Decode(p: seq<u8>): Option<Rtp>
  {
    match PayloadBegin(p)
    case None => None
    case Some(begin) =>
      if !PaddingValid(p, begin) then None
      else
        var end := PayloadEnd(p, begin);
        Some(Rtp(p[1], U16At(p, 2), U32At(p, 4), U32At(p, 8), p[12..CsrcEnd(p[0])],
                 ExtensionOf(p), p[begin..end], p[end..]))
  }

  lemma FirstByteSplits(first: u8)
    requires first / 64 == 2
    ensures first == 128 + (if HasPaddingBit(first) then 32 else 0)
                     + (if HasExtensionBit(first) then 16 else 0) + first % 16
  {
  }

  /** The bits of the first byte read back what was put into it. */
  lemma FirstByteReadBack(r: Rtp)
    requires Encodable(r)
    ensures var first := FirstByte(r);
            && first / 64 == 2
            && (HasPaddingBit(first) <==> r.padding != [])
            && (HasExtensionBit(first) <==> r.extension.Some?)
            && CsrcEnd(first) == 12 + |r.csrcs|
            && FirstByte(r.(padding := [])) == StrippedFirst(first)
  {
  }

  lemma FixedOfDecoded(p: seq<u8>)
    requires Decode(p).Some?
    ensures Encodable(Decode(p).value) && EncodeFixed(Decode(p).value) == p[..12]
  {
    var r := Decode(p).value;
    ExtensionOfDecoded(p);
    FirstByteSplits(p[0]);
    assert FirstByte(r) == p[0];
    FixedFields(p);
    hide FirstByte, CsrcEnd, HasPaddingBit, HasExtensionBit, PayloadBegin, U16Bytes, U32Bytes, EncodeExtension;
  }

  lemma FixedFields(p: seq<u8>)
    requires |p| >= 12
    ensures p[..12] == [p[0], p[1]] + U16Bytes(U16At(p, 2)) + U32Bytes(U32At(p, 4)) + U32Bytes(U32At(p, 8))
  {
    BytesAt(p, 2);
    BytesAt(p, 4);
    BytesAt(p, 8);
    hide *;
    assert p[..12] == [p[0], p[1]] + p[2..4] + p[4..8] + p[8..12];
  }

  /** The four bytes before an extension block, whatever block of that length follows. */
  lemma ExtensionWords(p: seq<u8>, at: nat, block: seq<u8>)
    requires at + 4 <= |p| && |block| == U16At(p, at + 2) * 4
    ensures |block| % 4 == 0 && |block| / 4 == U16At(p, at + 2)
    ensures EncodeExtension(Some(Extension(U16At(p, at), block))) == p[at..at + 4] + block
  {
    BytesAt(p, at);
    BytesAt(p, at + 2);
    assert p[at..at + 2] + p[at + 2..at + 4] == p[at..at + 4];
  }

  lemma ExtensionOfDecoded(p: seq<u8>)
    requires PayloadBegin(p).Some?
    ensures var e := ExtensionOf(p);
            && (e.Some? ==> |e.value.block| % 4 == 0 && |e.value.block| / 4 < 0x1_0000)
            && EncodeExtension(e) == p[CsrcEnd(p[0])..PayloadBegin(p).value]
  {
    var at, begin := CsrcEnd(p[0]), PayloadBegin(p).value;
    if HasExtensionBit(p[0]) {
      var block := p[at + 4..begin];
      ExtensionWords(p, at, block);
      hide *;
      assert p[at..at + 4] + block == p[at..begin];
    }
  }

  lemma Join(p: seq<u8>, a: nat, b: nat, c: nat, d: nat)
    requires a <= b <= c <= d <= |p|
    ensures p[..a] + p[a..b] + p[b..c] + p[c..d] + p[d..] == p
  {
  }

  /** Decoding loses nothing: encoding what was read gives the packet back. */
  lemma EncodeAfterDecode(p: seq<u8>)
    requires Decode(p).Some?
    ensures Encodable(Decode(p).value)
    ensures Encode(Decode(p).value) == p
  {
    FixedOfDecoded(p);
    ExtensionOfDecoded(p);
    var begin := PayloadBegin(p).value;
    Join(p, 12, CsrcEnd(p[0]), begin, PayloadEnd(p, begin));
  }

  /** The first twelve bytes, read back field by field. */
  lemma FixedReadBack(r: Rtp, rest: seq<u8>)
    requires Encodable(r)
    ensures var p := EncodeFixed(r) + rest;
            && p[0] == FirstByte(r) && p[1] == r.markerAndType
            && U16At(p, 2) == r.sequence && U32At(p, 4) == r.timestamp && U32At(p, 8) == r.ssrc
  {
    var p := EncodeFixed(r) + rest;
    assert p[2..4] == U16Bytes(r.sequence);
    assert p[4..8] == U32Bytes(r.timestamp);
    assert p[8..12] == U32Bytes(r.ssrc);
  }

  lemma ExtensionReadBack(e: Extension, before: seq<u8>, after: seq<u8>)
    requires |e.block| / 4 < 0x1_0000
    ensures var p := before + EncodeExtension(Some(e)) + after;
            var at := |before|;
            && U16At(p, at) == e.profile && U16At(p, at + 2) == |e.block| / 4
            && p[at + 4..at + 4 + |e.block|] == e.block
  {
    var p := before + EncodeExtension(Some(e)) + after;
    var at := |before|;
    assert p[at..at + 2] == U16Bytes(e.profile);
    assert p[at + 2..at + 4] == U16Bytes(|e.block| / 4);
  }

  lemma DecodeParts(p: seq<u8>, r: Rtp, csrcEnd: nat, begin: nat, end: nat)
    requires Encodable(r) && 12 <= csrcEnd <= begin <= end <= |p|
    requires p[0] == FirstByte(r) && csrcEnd == 12 + |r.csrcs|
    requires p[1] == r.markerAndType && U16At(p, 2) == r.sequence
    requires U32At(p, 4) == r.timestamp && U32At(p, 8) == r.ssrc
    requires p[12..csrcEnd] == r.csrcs
    requires r.extension.None? ==> begin == csrcEnd
    requires r.extension.Some? ==>
               && begin == csrcEnd + 4 + |r.extension.value.block|
               && U16At(p, csrcEnd) == r.extension.value.profile
               && U16At(p, csrcEnd + 2) == |r.extension.value.block| / 4
               && p[csrcEnd + 4..begin] == r.extension.value.block
    requires p[begin..end] == r.payload && p[end..] == r.padding
    ensures Decode(p) == Some(r)
  {
    FirstByteReadBack(r);
    hide FirstByte, CsrcEnd, HasExtensionBit, HasPaddingBit;
    assert r.padding != [] ==> p[|p| - 1] == p[end..][|r.padding| - 1];
  }

  /** Encoding loses nothing: a reader recovers every field. */
  lemma DecodeAfterEncode(r: Rtp)
    requires Encodable(r)
    ensures Decode(Encode(r)) == Some(r)
  {
    var fixed, ext := EncodeFixed(r), EncodeExtension(r.extension);
    assert |ext| == if r.extension.Some? then 4 + |r.extension.value.block| else 0;
    FixedReadBack(r, r.csrcs + ext + r.payload + r.padding);
    hide EncodeFixed, FirstByte, EncodeExtension, Decode, U16At, U32At;
    var p := fixed + r.csrcs + ext + r.payload + r.padding;
    Regroup(fixed, r.csrcs, ext, r.payload, r.padding);
    if r.extension.Some? {
      ExtensionReadBack(r.extension.value, fixed + r.csrcs, r.payload + r.padding);
    }
    var csrcEnd := 12 + |r.csrcs|;
    var begin := csrcEnd + |ext|;
    DecodeParts(p, r, csrcEnd, begin, begin + |r.payload|);
  }

  lemma Regroup(a: seq<u8>, b: seq<u8>, c: seq<u8>, d: seq<u8>, e: seq<u8>)
    ensures var p := a + b + c + d + e;
            && p == a + (b + c + d + e) && p == (a + b) + c + (d + e)
            && p[|a|..|a| + |b|] == b
            && p[|a| + |b| + |c|..|a| + |b| + |c| + |d|] == d
            && p[|a| + |b| + |c| + |d|..] == e
  {
  }

  // ---------------------------------------------------------------- the rewriter

  /** RTCP multiplexed on the same port (section 4 of RFC 5761). */
  predicate IsRtcp(p: seq<u8>)
  {
    |p| >= 8 && 64 <= p[1] % 128 <= 95
  }

  function FormatOf(profile: u16): Option<Format>
  {
    if profile == 0xbede then Some(OneByte)
    else if profile / 16 == 0x100 then Some(TwoByte)
    else None
  }

  /** The extension after the publisher's MID element is cleared; None when the
      block is malformed before that element. */
  function ClearExtension(e: Option<Extension>, mid: Option<u8>): Option<Option<Extension>>
  {
    if e.None? || mid.None? || FormatOf(e.value.profile).None? then Some(e)
    else match Clear(FormatOf(e.value.profile).value, e.value.block, mid.value)
      case None => None
      case Some(block) => Some(Some(e.value.(block := block)))
  }

  predicate HeaderAccepts(p: seq<u8>, mid: Option<u8>)
  {
    !IsRtcp(p) && Decode(p).Some? && ClearExtension(Decode(p).value.extension, mid).Some?
  }

  /** The packet a subscriber receives, before its numbers are spliced. */
  function ForSlot(r: Rtp, ssrc: u32, mid: Option<u8>): (s: Rtp)
    requires Encodable(r) && ClearExtension(r.extension, mid).Some?
    ensures Encodable(s)
  {
    r.(ssrc := ssrc, extension := ClearExtension(r.extension, mid).value, padding := [])
  }

  /** `rtc::binary`: a byte vector that is edited in place and can shrink. */
  class Binary {
    var bytes: seq<u8>

    constructor (b: seq<u8>)
      ensures bytes == b
    {
      bytes := b;
    }

    method SetU16(offset: nat, v: u16)
      requires offset + 2 <= |bytes|
      modifies this
      ensures bytes == old(bytes)[..offset] + U16Bytes(v) + old(bytes)[offset + 2..]
    {
      bytes := bytes[offset := v / 0x100];
      bytes := bytes[offset + 1 := v % 0x100];
    }

    method SetU32(offset: nat, v: u32)
      requires offset + 4 <= |bytes|
      modifies this
      ensures bytes == old(bytes)[..offset] + U32Bytes(v) + old(bytes)[offset + 4..]
    {
      SetU16(offset, v / 0x1_0000);
      SetU16(offset + 2, v % 0x1_0000);
    }

    method Fill(from: nat, to: nat)
      requires from <= to <= |bytes|
      modifies this
      ensures bytes == old(bytes)[..from] + Zeros(to - from) + old(bytes)[to..]
    {
      for i := from to to
        invariant |bytes| == |old(bytes)|
        invariant bytes == old(bytes)[..from] + Zeros(i - from) + old(bytes)[i..]
      {
        bytes := bytes[i := 0];
      }
    }
  }

  /** What clearing a block that lies at [begin, end) of a packet leaves. */
  ghost predicate Cleared(format: Format, before: seq<u8>, begin: nat, end: nat, id: u8, valid: bool, after: seq<u8>)
    requires begin <= end <= |before|
  {
    match Clear(format, before[begin..end], id)
    case None => !valid && after == before
    case Some(block) => valid && after == before[..begin] + block + before[end..]
  }

  /** Where the cursor stands: everything before it has been passed over unchanged. */
  ghost predicate Passed(format: Format, p: seq<u8>, begin: nat, cursor: nat, end: nat, id: u8)
    requires begin <= cursor <= end <= |p|
  {
    Clear(format, p[begin..end], id)
    == Behind(p[begin..end], cursor - begin, Clear(format, p[cursor..end], id))
  }

  lemma PassNone(format: Format, p: seq<u8>, begin: nat, end: nat, id: u8)
    requires begin <= end <= |p|
    ensures Passed(format, p, begin, begin, end, id)
  {
    var cleared := Clear(format, p[begin..end], id);
    if cleared.Some? {
      assert p[begin..end][..0] + cleared.value == cleared.value;
    }
  }

  lemma BehindBehind(block: seq<u8>, k: nat, n: nat, rest: Option<seq<u8>>)
    requires k + n <= |block|
    ensures Behind(block, k, Behind(block[k..], n, rest)) == Behind(block, k + n, rest)
  {
    assert block[k..][..n] == block[k..k + n];
    if rest.Some? {
      assert block[..k] + (block[k..k + n] + rest.value) == block[..k + n] + rest.value;
    }
  }

  lemma PassOne(format: Format, p: seq<u8>, begin: nat, cursor: nat, end: nat, id: u8, n: nat)
    requires begin <= cursor < end <= |p| && Passed(format, p, begin, cursor, end, id)
    requires var h := HeadOf(format, p[cursor..end]);
             (h.Padding? && n == 1) || (h.Item? && h.id != id && n == h.prefix + h.size)
    ensures cursor + n <= end && Passed(format, p, begin, cursor + n, end, id)
  {
    ClearStep(format, p[cursor..end], id, n);
    hide Clear, HeadOf, Behind;
    SliceTail(p, cursor, end, n);
    SliceTail(p, begin, end, cursor - begin);
    BehindBehind(p[begin..end], cursor - begin, n, Clear(format, p[cursor + n..end], id));
  }

  /** The cursor is at the end, or at the element that ends a block: nothing is cleared. */
  lemma ReachedEnd(format: Format, p: seq<u8>, begin: nat, cursor: nat, end: nat, id: u8)
    requires begin <= cursor <= end <= |p| && Passed(format, p, begin, cursor, end, id)
    requires cursor == end || HeadOf(format, p[cursor..end]).Stop?
    ensures Cleared(format, p, begin, end, id, true, p)
  {
    assert p[begin..end][..cursor - begin] + p[cursor..end] == p[begin..end];
    assert p == p[..begin] + p[begin..end] + p[end..];
  }

  lemma ReachedDefect(format: Format, p: seq<u8>, begin: nat, cursor: nat, end: nat, id: u8)
    requires begin <= cursor < end <= |p| && Passed(format, p, begin, cursor, end, id)
    requires HeadOf(format, p[cursor..end]).Malformed?
    ensures Cleared(format, p, begin, end, id, false, p)
  {
  }

  /** The cursor is at the element to clear. */
  lemma ReachedItem(format: Format, p: seq<u8>, begin: nat, cursor: nat, end: nat, id: u8, n: nat)
    requires begin <= cursor < end <= |p| && Passed(format, p, begin, cursor, end, id)
    requires var h := HeadOf(format, p[cursor..end]); h.Item? && h.id == id && n == h.prefix + h.size
    ensures Cleared(format, p, begin, end, id, true, p[..cursor] + Zeros(n) + p[cursor + n..])
  {
    var block := p[begin..end][..cursor - begin] + (Zeros(n) + p[cursor..end][n..]);
    assert Clear(format, p[begin..end], id) == Some(block);
    hide Clear, HeadOf, Behind, Zeros, Passed;
    assert p[..begin] + block + p[end..] == p[..cursor] + Zeros(n) + p[cursor + n..];
  }

  method ClearOneByteMid(packet: Binary, begin: nat, end: nat, id: u8) returns (valid: bool)
    requires begin <= end <= |packet.bytes|
    modifies packet
    ensures Cleared(OneByte, old(packet.bytes), begin, end, id, valid, packet.bytes)
  {
    hide Passed, Cleared;
    ghost var before := packet.bytes;
    var cursor := begin;
    PassNone(OneByte, before, begin, end, id);
    while cursor < end
      invariant begin <= cursor <= end && packet.bytes == before
      invariant Passed(OneByte, before, begin, cursor, end, id)
    {
      var descriptor := packet.bytes[cursor];
      assert before[cursor..end][0] == descriptor;
      if descriptor == 0 {
        PassOne(OneByte, before, begin, cursor, end, id, 1);
        cursor := cursor + 1;
        continue;
      }
      if descriptor / 16 == 15 {
        ReachedEnd(OneByte, before, begin, cursor, end, id);
        return true;
      }
      var size: int := descriptor % 16 + 1;
      if cursor + 1 + size > end {
        ReachedDefect(OneByte, before, begin, cursor, end, id);
        return false;
      }
      if descriptor / 16 == id {
        ReachedItem(OneByte, before, begin, cursor, end, id, 1 + size);
        packet.Fill(cursor, cursor + 1 + size);
        return true;
      }
      PassOne(OneByte, before, begin, cursor, end, id, 1 + size);
      cursor := cursor + 1 + size;
    }
    ReachedEnd(OneByte, before, begin, cursor, end, id);
    return true;
  }

  method ClearTwoByteMid(packet: Binary, begin: nat, end: nat, id: u8) returns (valid: bool)
    requires begin <= end <= |packet.bytes|
    modifies packet
    ensures Cleared(TwoByte, old(packet.bytes), begin, end, id, valid, packet.bytes)
  {
    hide Passed, Cleared;
    ghost var before := packet.bytes;
    var cursor := begin;
    PassNone(TwoByte, before, begin, end, id);
    while cursor < end
      invariant begin <= cursor <= end && packet.bytes == before
      invariant Passed(TwoByte, before, begin, cursor, end, id)
    {
      var found := packet.bytes[cursor];
      if found == 0 {
        PassOne(TwoByte, before, begin, cursor, end, id, 1);
        cursor := cursor + 1;
        continue;
      }
      if cursor + 2 > end {
        ReachedDefect(TwoByte, before, begin, cursor, end, id);
        return false;
      }
      var size: int := packet.bytes[cursor + 1];
      if cursor + 2 + size > end {
        ReachedDefect(TwoByte, before, begin, cursor, end, id);
        return false;
      }
      if found == id {
        ReachedItem(TwoByte, before, begin, cursor, end, id, 2 + size);
        packet.Fill(cursor, cursor + 2 + size);
        return true;
      }
      PassOne(TwoByte, before, begin, cursor, end, id, 2 + size);
      cursor := cursor + 2 + size;
    }
    ReachedEnd(TwoByte, before, begin, cursor, end, id);
    return true;
  }

  /** The packet once the MID element of its extension is cleared. */
  function ClearedPacket(p: seq<u8>, mid: Option<u8>): (q: seq<u8>)
    requires PayloadBegin(p).Some? && ClearExtension(ExtensionOf(p), mid).Some?
    ensures |q| == |p|
  {
    if !HasExtensionBit(p[0]) then p
    else
      p[..CsrcEnd(p[0]) + 4]
      + ClearExtension(ExtensionOf(p), mid).value.value.block
      + p[PayloadBegin(p).value..]
  }

  /** Clearing leaves the fixed header, the CSRCs, the payload and the padding alone. */
  lemma ClearedPacketKeeps(p: seq<u8>, mid: Option<u8>)
    requires PayloadBegin(p).Some? && ClearExtension(ExtensionOf(p), mid).Some?
    ensures var q := ClearedPacket(p, mid);
            && q[..12] == p[..12]
            && q[12..CsrcEnd(p[0])] == p[12..CsrcEnd(p[0])]
            && q[PayloadBegin(p).value..] == p[PayloadBegin(p).value..]
  {
    hide CsrcEnd, HasExtensionBit, ClearExtension, U16At;
  }

  lemma ClearedPacketExtension(p: seq<u8>, mid: Option<u8>)
    requires PayloadBegin(p).Some? && ClearExtension(ExtensionOf(p), mid).Some?
    ensures ClearedPacket(p, mid)[CsrcEnd(p[0])..PayloadBegin(p).value]
         == EncodeExtension(ClearExtension(ExtensionOf(p), mid).value)
  {
    var at, begin := CsrcEnd(p[0]), PayloadBegin(p).value;
    if HasExtensionBit(p[0]) {
      var e := ClearExtension(ExtensionOf(p), mid).value.value;
      assert e.profile == U16At(p, at) && |e.block| == begin - (at + 4);
      ExtensionWords(p, at, e.block);
      hide PayloadBegin, CsrcEnd, HasExtensionBit, ClearExtension, EncodeExtension, U16At;
      MiddleOf(p, at, begin, e.block);
    }
  }

  lemma MiddleOf(p: seq<u8>, at: nat, begin: nat, block: seq<u8>)
    requires at + 4 <= begin <= |p| && |block| == begin - (at + 4)
    ensures (p[..at + 4] + block + p[begin..])[at..begin] == p[at..at + 4] + block
  {
  }

  lemma ClearedPacketEnds(p: seq<u8>, mid: Option<u8>)
    requires PayloadBegin(p).Some? && ClearExtension(ExtensionOf(p), mid).Some?
    ensures var q := ClearedPacket(p, mid);
            var begin := PayloadBegin(p).value;
            && q[0] == p[0]
            && (PaddingValid(q, begin) <==> PaddingValid(p, begin))
            && (PaddingValid(q, begin) ==> PayloadEnd(q, begin) == PayloadEnd(p, begin))
  {
    hide CsrcEnd, HasExtensionBit, HasPaddingBit, ClearExtension, U16At;
  }

  lemma FixedForSlot(r: Rtp, ssrc: u32, mid: Option<u8>)
    requires Encodable(r) && ClearExtension(r.extension, mid).Some?
    ensures EncodeFixed(ForSlot(r, ssrc, mid))
         == [StrippedFirst(FirstByte(r))] + EncodeFixed(r)[1..8] + U32Bytes(ssrc)
  {
    var s := ForSlot(r, ssrc, mid);
    FirstByteReadBack(r);
    assert FirstByte(s) == FirstByte(r.(padding := []));
    hide FirstByte, U16Bytes, U32Bytes;
    var middle := [r.markerAndType] + U16Bytes(r.sequence) + U32Bytes(r.timestamp);
    assert EncodeFixed(r) == [FirstByte(r)] + middle + U32Bytes(r.ssrc);
    assert EncodeFixed(s) == [FirstByte(s)] + middle + U32Bytes(ssrc);
    assert EncodeFixed(r)[1..8] == middle;
  }

  lemma BodyForSlot(p: seq<u8>, mid: Option<u8>)
    requires Decode(p).Some? && ClearExtension(ExtensionOf(p), mid).Some?
    ensures var q := ClearedPacket(p, mid);
            var begin := PayloadBegin(p).value;
            var end := PayloadEnd(p, begin);
            q[12..end] == p[12..CsrcEnd(p[0])] + EncodeExtension(ClearExtension(ExtensionOf(p), mid).value) + p[begin..end]
  {
    ClearedPacketKeeps(p, mid);
    ClearedPacketExtension(p, mid);
    hide *;
    var begin := PayloadBegin(p).value;
    Assemble(p, ClearedPacket(p, mid), CsrcEnd(p[0]), begin, PayloadEnd(p, begin),
             EncodeExtension(ClearExtension(ExtensionOf(p), mid).value));
  }

  lemma Assemble(p: seq<u8>, q: seq<u8>, a: nat, b: nat, end: nat, middle: seq<u8>)
    requires 12 <= a <= b <= end <= |p| == |q|
    requires q[12..a] == p[12..a] && q[a..b] == middle && q[b..] == p[b..]
    ensures q[12..end] == p[12..a] + middle + p[b..end]
  {
    assert q[b..end] == q[b..][..end - b];
    assert p[b..end] == p[b..][..end - b];
    assert q[12..end] == q[12..a] + q[a..b] + q[b..end];
  }

  /** The accepted packet, byte by byte: the cleared packet without its padding, with
      the padding bit dropped and the SSRC overwritten. */
  lemma ForSlotBytes(p: seq<u8>, ssrc: u32, mid: Option<u8>)
    requires HeaderAccepts(p, mid)
    ensures Encodable(Decode(p).value)
    ensures var q := ClearedPacket(p, mid);
            var end := PayloadEnd(p, PayloadBegin(p).value);
            Encode(ForSlot(Decode(p).value, ssrc, mid))
            == [StrippedFirst(p[0])] + q[1..8] + U32Bytes(ssrc) + q[12..end]
  {
    hide ClearedPacket, ClearExtension, Clear, U32Bytes;
    var q := ClearedPacket(p, mid);
    FixedOfDecoded(p);
    var r := Decode(p).value;
    FixedForSlot(r, ssrc, mid);
    BodyForSlot(p, mid);
    ClearedPacketKeeps(p, mid);
    var end := PayloadEnd(p, PayloadBegin(p).value);
    assert FirstByte(r) == EncodeFixed(r)[0] == p[..12][0];
    var s := ForSlot(r, ssrc, mid);
    SameMiddle(p, q);
    AppendBody(s, q[12..end]);
  }

  lemma SameMiddle(p: seq<u8>, q: seq<u8>)
    requires |p| >= 12 && |q| >= 12 && p[..12] == q[..12]
    ensures p[..12][1..8] == q[1..8]
  {
    assert q[..12][1..8] == q[1..8];
  }

  lemma AppendBody(s: Rtp, body: seq<u8>)
    requires Encodable(s) && s.padding == []
    requires body == s.csrcs + EncodeExtension(s.extension) + s.payload
    ensures Encode(s) == EncodeFixed(s) + body
  {
    assert s.payload + s.padding == s.payload;
  }

  /** The bytes after the last two writes. */
  lemma StrippedBytes(q: seq<u8>, end: nat, first: u8, ssrc: u32)
    requires 12 <= end <= |q|
    ensures var stripped := q[..end][0 := first];
            stripped[..8] + U32Bytes(ssrc) + stripped[12..] == [first] + q[1..8] + U32Bytes(ssrc) + q[12..end]
  {
    hide U32Bytes;
  }

  /** From the extension block to the packet around it. */
  lemma BlockCleared(format: Format, p: seq<u8>, mid: u8, valid: bool, q: seq<u8>)
    requires PayloadBegin(p).Some? && HasExtensionBit(p[0])
    requires FormatOf(ExtensionOf(p).value.profile) == Some(format)
    requires Cleared(format, p, CsrcEnd(p[0]) + 4, PayloadBegin(p).value, mid, valid, q)
    ensures valid <==> ClearExtension(ExtensionOf(p), Some(mid)).Some?
    ensures q == if valid then ClearedPacket(p, Some(mid)) else p
  {
  }

  lemma NothingToClear(p: seq<u8>, mid: Option<u8>)
    requires PayloadBegin(p).Some?
    requires HasExtensionBit(p[0]) && mid.Some? ==> FormatOf(ExtensionOf(p).value.profile).None?
    ensures ClearExtension(ExtensionOf(p), mid) == Some(ExtensionOf(p)) && ClearedPacket(p, mid) == p
  {
    if HasExtensionBit(p[0]) {
      assert p == p[..CsrcEnd(p[0]) + 4] + p[CsrcEnd(p[0]) + 4..PayloadBegin(p).value] + p[PayloadBegin(p).value..];
    }
  }

  /** What `RewriteRtpForSlot` leaves behind. A packet is accepted exactly when it is
      not RTCP, decodes, and its extension can be cleared; it then is the encoding of
      the decoded packet with only the SSRC, the MID element and the padding changed.
      A refused packet has lost its MID element exactly when its layout reads and its
      extension can be cleared, so that only the padding was wrong; else it is unchanged. */
  ghost predicate Rewritten(before: seq<u8>, ssrc: u32, mid: Option<u8>, ok: bool, after: seq<u8>)
  {
    && (ok <==> HeaderAccepts(before, mid))
    && (ok ==> Encodable(Decode(before).value)
               && after == Encode(ForSlot(Decode(before).value, ssrc, mid)))
    && (!ok ==> after == if OnlyPaddingWrong(before, mid) then ClearedPacket(before, mid) else before)
  }

  predicate OnlyPaddingWrong(p: seq<u8>, mid: Option<u8>)
    ensures OnlyPaddingWrong(p, mid) ==> PayloadBegin(p).Some? && ClearExtension(ExtensionOf(p), mid).Some?
  {
    && !IsRtcp(p) && PayloadBegin(p).Some? && ClearExtension(ExtensionOf(p), mid).Some?
    && !PaddingValid(p, PayloadBegin(p).value)
  }

  lemma RefusedAtOnce(p: seq<u8>, ssrc: u32, mid: Option<u8>)
    requires IsRtcp(p) || PayloadBegin(p).None? || ClearExtension(ExtensionOf(p), mid).None?
    ensures Rewritten(p, ssrc, mid, false, p)
  {
  }

  /** The packet after the padding was dropped and the SSRC written. */
  lemma Accepted(p: seq<u8>, ssrc: u32, mid: Option<u8>, after: seq<u8>)
    requires !IsRtcp(p) && PayloadBegin(p).Some? && PaddingValid(p, PayloadBegin(p).value)
    requires ClearExtension(ExtensionOf(p), mid).Some?
    requires var q := ClearedPacket(p, mid);
             var end := PayloadEnd(p, PayloadBegin(p).value);
             after == [StrippedFirst(p[0])] + q[1..8] + U32Bytes(ssrc) + q[12..end]
    ensures Rewritten(p, ssrc, mid, true, after)
  {
    ForSlotBytes(p, ssrc, mid);
  }

  /** The last steps: drop valid padding together with its bit, and write the SSRC. */
  method StripAndStamp(packet: Binary, payloadBegin: nat, ssrc: u32) returns (ok: bool)
    requires 12 <= payloadBegin <= |packet.bytes|
    modifies packet
    ensures ok <==> PaddingValid(old(packet.bytes), payloadBegin)
    ensures !ok ==> packet.bytes == old(packet.bytes)
    ensures ok ==> var q := old(packet.bytes);
                   packet.bytes == [StrippedFirst(q[0])] + q[1..8] + U32Bytes(ssrc) + q[12..PayloadEnd(q, payloadBegin)]
  {
    hide U32Bytes;
    ghost var q := packet.bytes;
    if HasPaddingBit(packet.bytes[0]) {
      if |packet.bytes| <= payloadBegin {
        return false;
      }
      var paddingSize := packet.bytes[|packet.bytes| - 1];
      if paddingSize == 0 || paddingSize > |packet.bytes| - payloadBegin {
        return false;
      }
      packet.bytes := packet.bytes[..|packet.bytes| - paddingSize];
      packet.bytes := packet.bytes[0 := StrippedFirst(packet.bytes[0])];
    }
    StrippedBytes(q, PayloadEnd(q, payloadBegin), StrippedFirst(q[0]), ssrc);
    packet.SetU32(8, ssrc);
    return true;
  }

  method RewriteRtpForSlot(packet: Binary, ssrc: u32, mid: Option<u8>) returns (ok: bool)
    modifies packet
    ensures Rewritten(old(packet.bytes), ssrc, mid, ok, packet.bytes)
    ensures ok ==> |packet.bytes| >= 12
  {
    hide Rewritten, Cleared, ClearedPacket, ClearExtension, U32Bytes, CsrcEnd, HasExtensionBit, HasPaddingBit, StrippedFirst, U16At;
    ghost var before := packet.bytes;
    if |packet.bytes| < 12 || packet.bytes[0] / 64 != 2 || IsRtcp(packet.bytes) {
      RefusedAtOnce(before, ssrc, mid);
      return false;
    }
    var headerSize := CsrcEnd(packet.bytes[0]);
    if headerSize > |packet.bytes| {
      RefusedAtOnce(before, ssrc, mid);
      return false;
    }
    var payloadBegin := headerSize;
    if HasExtensionBit(packet.bytes[0]) {
      if headerSize + 4 > |packet.bytes| {
        RefusedAtOnce(before, ssrc, mid);
        return false;
      }
      var profile := U16At(packet.bytes, headerSize);
      var extensionSize: int := U16At(packet.bytes, headerSize + 2) * 4;
      var bodyBegin := headerSize + 4;
      if extensionSize > |packet.bytes| - bodyBegin {
        RefusedAtOnce(before, ssrc, mid);
        return false;
      }
      var bodyEnd := bodyBegin + extensionSize;
      payloadBegin := bodyEnd;
      assert PayloadBegin(before) == Some(payloadBegin);
      if mid.Some? {
        var valid := true;
        if profile == 0xbede {
          valid := ClearOneByteMid(packet, bodyBegin, bodyEnd, mid.value);
          BlockCleared(OneByte, before, mid.value, valid, packet.bytes);
        } else if profile / 16 == 0x100 {
          valid := ClearTwoByteMid(packet, bodyBegin, bodyEnd, mid.value);
          BlockCleared(TwoByte, before, mid.value, valid, packet.bytes);
        } else {
          NothingToClear(before, mid);
        }
        if !valid {
          RefusedAtOnce(before, ssrc, mid);
          return false;
        }
      } else {
        NothingToClear(before, mid);
      }
    } else {
      NothingToClear(before, mid);
    }
    ghost var cleared := packet.bytes;
    ClearedPacketEnds(before, mid);
    ok := StripAndStamp(packet, payloadBegin, ssrc);
    if ok {
      Accepted(before, ssrc, mid, packet.bytes);
    } else {
      RefusedForPadding(before, ssrc, mid);
    }
  }

  lemma RefusedForPadding(p: seq<u8>, ssrc: u32, mid: Option<u8>)
    requires !IsRtcp(p) && PayloadBegin(p).Some? && !PaddingValid(p, PayloadBegin(p).value)
    requires ClearExtension(ExtensionOf(p), mid).Some?
    ensures Rewritten(p, ssrc, mid, false, ClearedPacket(p, mid))
  {
  }

  /** What an accepted packet means to its reader: the same packet with another SSRC and
      no padding, whose extension has lost the first MID element and nothing else. */
  lemma RewrittenMeans(before: seq<u8>, ssrc: u32, mid: Option<u8>, after: seq<u8>)
    requires Rewritten(before, ssrc, mid, true, after)
    ensures Decode(before).Some? && Decode(after).Some?
    ensures var r, s := Decode(before).value, Decode(after).value;
            && s == r.(ssrc := ssrc, padding := [], extension := s.extension)
            && |after| == |before| - |r.padding|
            && (r.extension.Some? <==> s.extension.Some?)
            && (r.extension.Some? ==>
                  && s.extension.value.profile == r.extension.value.profile
                  && |s.extension.value.block| == |r.extension.value.block|
                  && SameBut(r.extension.value, s.extension.value, mid))
  {
    hide Decode, Encode, Encodable, Walk, Clear;
    var r := Decode(before).value;
    EncodeAfterDecode(before);
    DecodeAfterEncode(ForSlot(r, ssrc, mid));
    EncodedSize(r);
    EncodedSize(ForSlot(r, ssrc, mid));
    if r.extension.Some? && mid.Some? && FormatOf(r.extension.value.profile).Some? {
      ClearRemovesFirstElement(FormatOf(r.extension.value.profile).value, r.extension.value.block, mid.value);
    }
  }

  /** The elements a reader finds are those of `a` minus the first with the MID's id; a
      block in another format, or with no MID to look for, is the same. */
  ghost predicate SameBut(a: Extension, b: Extension, mid: Option<u8>)
  {
    if mid.None? || FormatOf(a.profile).None? then b == a
    else
      var format := FormatOf(a.profile).value;
      var walk := Walk(format, a.block);
      Walk(format, b.block) == Elements(WithoutFirst(walk.items, mid.value), walk.wellFormed)
  }

  /** A packet that is refused and changed: its MID element goes before its padding turns
      out to be wrong, for the padding bit is set on a packet without a payload. */
  const UNPADDED_START: seq<u8> := [0xB0, 96, 0, 1, 0, 0, 0, 2, 0, 0, 0, 3, 0xBE, 0xDE, 0, 1]
  const ONE_MID: seq<u8> := [0x10, 0x41, 0, 0]

  lemma RefusedAndChanged(ssrc: u32, ok: bool, after: seq<u8>)
    requires Rewritten(UNPADDED_START + ONE_MID, ssrc, Some(1), ok, after)
    ensures !ok && after == UNPADDED_START + [0, 0, 0, 0] && after != UNPADDED_START + ONE_MID
  {
    hide Walk, Clear, PayloadBegin, ExtensionOf, Decode, HasExtensionBit, PaddingValid, CsrcEnd;
    var p := UNPADDED_START + ONE_MID;
    UnpaddedLayout(p);
    MidCleared();
    assert Decode(p).None? by {
      NoDecode(p);
    }
    assert OnlyPaddingWrong(p, Some(1));
    assert p[..16] == UNPADDED_START && p[20..] == [];
    assert ClearedPacket(p, Some(1)) == UNPADDED_START + [0, 0, 0, 0];
    assert after[16] == 0 && p[16] == 0x10;
  }

  lemma NoDecode(p: seq<u8>)
    requires PayloadBegin(p).Some? && !PaddingValid(p, PayloadBegin(p).value)
    ensures Decode(p).None?
  {
  }

  lemma UnpaddedLayout(p: seq<u8>)
    requires p == UNPADDED_START + ONE_MID
    ensures !IsRtcp(p) && PayloadBegin(p) == Some(20) && !PaddingValid(p, 20)
    ensures HasExtensionBit(p[0]) && CsrcEnd(p[0]) == 12
    ensures ExtensionOf(p) == Some(Extension(0xBEDE, ONE_MID))
  {
    assert p[0] == 0xB0 && p[1] == 96;
    assert U16At(p, 12) == 0xBEDE && U16At(p, 14) == 1;
    assert p[16..20] == ONE_MID;
  }

  lemma MidCleared()
    ensures ClearExtension(Some(Extension(0xBEDE, ONE_MID)), Some(1)) == Some(Some(Extension(0xBEDE, [0, 0, 0, 0])))
  {
    assert HeadOf(OneByte, ONE_MID) == Item(1, 1, 1);
    assert Zeros(2) + ONE_MID[2..] == [0, 0, 0, 0];
  }

  lemma EncodedSize(r: Rtp)
    requires Encodable(r)
    ensures |Encode(r)| == 12 + |r.csrcs| + (if r.extension.Some? then 4 + |r.extension.value.block| else 0)
                           + |r.payload| + |r.padding|
  {
  }
}

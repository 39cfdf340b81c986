/** Extension blocks as a sender writes them (sections 4.2 and 4.3 of RFC 8285), against the
    reader and the rewriter of such blocks. */
module RtpElements {
  import opened Words
  import opened RtpHeader

  /** The elements each format can carry. */
  predicate Writable(format: Format, e: Element)
  {
    match format
    case OneByte => 1 <= e.id <= 14 && 1 <= |e.value| <= 16
    case TwoByte => 1 <= e.id <= 255 && |e.value| <= 255
  }

  /** The one-byte format packs the id and the length minus one into one byte, the
      two-byte format has a byte for each. */
  function EncodeElement(format: Format, e: Element): (b: seq<u8>)
    requires Writable(format, e)
    ensures b != []
  {
    match format
    case OneByte => [e.id * 16 + (|e.value| - 1)] + e.value
    case TwoByte => [e.id, |e.value|] + e.value
  }

  /** A block is a row of elements with zero bytes anywhere between them. */
  datatype Piece = Zero | Carry(element: Element)

  predicate AllWritable(format: Format, pieces: seq<Piece>)
  {
    forall i :: 0 <= i < |pieces| && pieces[i].Carry? ==> Writable(format, pieces[i].element)
  }

  function EncodePiece(format: Format, p: Piece): (b: seq<u8>)
    requires p.Carry? ==> Writable(format, p.element)
    ensures b != []
  {
    if p.Zero? then [0] else EncodeElement(format, p.element)
  }

  function EncodeElements(format: Format, pieces: seq<Piece>): seq<u8>
    requires AllWritable(format, pieces)
  {
    if pieces == [] then [] else EncodePiece(format, pieces[0]) + EncodeElements(format, pieces[1..])
  }

  function ElementsOf(pieces: seq<Piece>): seq<Element>
  {
    if pieces == [] then []
    else (if pieces[0].Carry? then [pieces[0].element] else []) + ElementsOf(pieces[1..])
  }

  // ---------------------------------------------------------------- reading what was written

  lemma HeadOfEncoded(format: Format, e: Element, tail: seq<u8>)
    requires Writable(format, e)
    ensures var block := EncodeElement(format, e) + tail;
            var n := |EncodeElement(format, e)|;
            && HeadOf(format, block) == Item(e.id, n - |e.value|, |e.value|)
            && block[n - |e.value|..n] == e.value && block[n..] == tail
  {
  }

  lemma HeadOfZero(format: Format, tail: seq<u8>)
    ensures HeadOf(format, [0] + tail) == Padding && ([0] + tail)[1..] == tail
  {
  }

  lemma ReadOne(format: Format, p: Piece, tail: seq<u8>)
    requires p.Carry? ==> Writable(format, p.element)
    ensures var rest := Walk(format, tail);
            Walk(format, EncodePiece(format, p) + tail)
            == Elements((if p.Carry? then [p.element] else []) + rest.items, rest.wellFormed)
  {
    hide HeadOf, EncodeElement;
    if p.Zero? {
      HeadOfZero(format, tail);
    } else {
      HeadOfEncoded(format, p.element, tail);
    }
  }

  /** A reader finds what was written, and goes on with what follows. */
  lemma {:induction false} ReadsOn(format: Format, pieces: seq<Piece>, tail: seq<u8>)
    requires AllWritable(format, pieces)
    ensures var rest := Walk(format, tail);
            Walk(format, EncodeElements(format, pieces) + tail) == Elements(ElementsOf(pieces) + rest.items, rest.wellFormed)
  {
    hide Walk, EncodePiece;
    if pieces == [] {
      assert [] + tail == tail && ElementsOf(pieces) + Walk(format, tail).items == Walk(format, tail).items;
    } else {
      var first, more := EncodePiece(format, pieces[0]), EncodeElements(format, pieces[1..]);
      assert first + more + tail == first + (more + tail);
      ReadsOn(format, pieces[1..], tail);
      ReadOne(format, pieces[0], more + tail);
    }
  }

  /** Every list of elements, with zeros anywhere between, is read back. */
  lemma WrittenIsRead(format: Format, pieces: seq<Piece>)
    requires AllWritable(format, pieces)
    ensures Walk(format, EncodeElements(format, pieces)) == Elements(ElementsOf(pieces), true)
  {
    ReadsOn(format, pieces, []);
    assert EncodeElements(format, pieces) + [] == EncodeElements(format, pieces);
    assert Walk(format, []) == Elements([], true);
  }

  /** Id 15 of the one-byte format ends the list, whatever follows. */
  lemma StopEndsTheList(pieces: seq<Piece>, low: u8, junk: seq<u8>)
    requires AllWritable(OneByte, pieces) && low < 16
    ensures Walk(OneByte, EncodeElements(OneByte, pieces) + ([0xF0 + low] + junk)) == Elements(ElementsOf(pieces), true)
  {
    ReadsOn(OneByte, pieces, [0xF0 + low] + junk);
  }

  /** A block that ends inside an element is a defect, and what came before it is read. */
  lemma CutOffIsMalformed(format: Format, pieces: seq<Piece>, e: Element, n: nat)
    requires AllWritable(format, pieces) && Writable(format, e) && 0 < n < |EncodeElement(format, e)|
    ensures Walk(format, EncodeElements(format, pieces) + EncodeElement(format, e)[..n]) == Elements(ElementsOf(pieces), false)
  {
    hide HeadOf, EncodeElement, EncodeElements, Writable;
    var cut := EncodeElement(format, e)[..n];
    ReadsOn(format, pieces, cut);
    CutHead(format, e, n);
    assert ElementsOf(pieces) + [] == ElementsOf(pieces);
  }

  lemma CutHead(format: Format, e: Element, n: nat)
    requires Writable(format, e) && 0 < n < |EncodeElement(format, e)|
    ensures HeadOf(format, EncodeElement(format, e)[..n]) == Malformed
  {
  }

  // ---------------------------------------------------------------- rewriting what was written

  predicate CarriesId(p: Piece, id: u8) { p.Carry? && p.element.id == id }

  /** The pieces with the first element of this id turned into zeros. */
  function ZeroedFirst(format: Format, pieces: seq<Piece>, id: u8): seq<u8>
    requires AllWritable(format, pieces)
  {
    if pieces == [] then []
    else if CarriesId(pieces[0], id) then
      Zeros(|EncodePiece(format, pieces[0])|) + EncodeElements(format, pieces[1..])
    else EncodePiece(format, pieces[0]) + ZeroedFirst(format, pieces[1..], id)
  }

  lemma ClearOne(format: Format, p: Piece, tail: seq<u8>, id: u8)
    requires p.Carry? ==> Writable(format, p.element)
    ensures var b := EncodePiece(format, p);
            Clear(format, b + tail, id)
            == if CarriesId(p, id) then Some(Zeros(|b|) + tail)
               else if Clear(format, tail, id).Some? then Some(b + Clear(format, tail, id).value) else None
  {
    hide HeadOf, EncodeElement;
    var b := EncodePiece(format, p);
    if p.Zero? {
      HeadOfZero(format, tail);
    } else {
      HeadOfEncoded(format, p.element, tail);
    }
    assert (b + tail)[..|b|] == b && (b + tail)[|b|..] == tail;
  }

  /** The rewriter turns the first element of the id into zeros and leaves every other
      byte as it was. */
  lemma {:induction false} WrittenIsCleared(format: Format, pieces: seq<Piece>, id: u8)
    requires AllWritable(format, pieces)
    ensures Clear(format, EncodeElements(format, pieces), id) == Some(ZeroedFirst(format, pieces, id))
  {
    hide EncodePiece;
    if pieces != [] {
      WrittenIsCleared(format, pieces[1..], id);
      ClearOne(format, pieces[0], EncodeElements(format, pieces[1..]), id);
    }
  }

  // ---------------------------------------------------------------- whole packets

  /** The profiles that announce the two formats. */
  predicate Announces(profile: u16, format: Format)
  {
    match format
    case OneByte => profile == 0xBEDE
    case TwoByte => 0x1000 <= profile <= 0x100F
  }

  /** Media as RTP and RTCP share a port: types 64 to 95 belong to control packets. */
  predicate MediaType(markerAndType: u8)
  {
    markerAndType % 128 < 64 || markerAndType % 128 > 95
  }

  /** A media packet with a written extension goes out as the same packet with the SSRC of
      the slot, without padding, and with the first MID element turned into zeros. */
  lemma WrittenPacketIsRewritten(r: Rtp, format: Format, pieces: seq<Piece>, ssrc: u32, id: u8, ok: bool, after: seq<u8>)
    requires Encodable(r) && MediaType(r.markerAndType) && AllWritable(format, pieces)
    requires r.extension.Some? && Announces(r.extension.value.profile, format)
    requires r.extension.value.block == EncodeElements(format, pieces)
    requires Rewritten(Encode(r), ssrc, Some(id), ok, after)
    ensures var sent := r.(ssrc := ssrc, padding := [],
                           extension := Some(r.extension.value.(block := ZeroedFirst(format, pieces, id))));
            ok && Encodable(sent) && after == Encode(sent)
  {
    hide Decode, Encode, Clear, ZeroedFirst, EncodeElements, AllWritable;
    DecodeAfterEncode(r);
    WrittenIsCleared(format, pieces, id);
    NotControl(r);
  }

  lemma NotControl(r: Rtp)
    requires Encodable(r)
    ensures IsRtcp(Encode(r)) <==> !MediaType(r.markerAndType)
  {
    hide FirstByte, EncodeExtension;
    var rest := r.csrcs + EncodeExtension(r.extension) + r.payload + r.padding;
    assert Encode(r) == EncodeFixed(r) + rest;
    assert Encode(r)[1] == r.markerAndType;
  }

  /** A media packet without an extension, without an id to look for, or with an extension
      in another format keeps its extension; a control packet is refused as it is. */
  lemma OtherPacketsAreRewritten(r: Rtp, ssrc: u32, mid: Option<u8>, ok: bool, after: seq<u8>)
    requires Encodable(r) && Rewritten(Encode(r), ssrc, mid, ok, after)
    requires r.extension.Some? && mid.Some? ==>
               !Announces(r.extension.value.profile, OneByte) && !Announces(r.extension.value.profile, TwoByte)
    ensures ok <==> MediaType(r.markerAndType)
    ensures after == if ok then Encode(r.(ssrc := ssrc, padding := [])) else Encode(r)
  {
    hide Decode, Encode, Clear;
    DecodeAfterEncode(r);
    NotControl(r);
  }

  const KNOWN := Rtp(
    0xE0, 0x1234, 0x0102_0304, 0xA1A2_A3A4, [0xC1, 0xC2, 0xC3, 0xC4],
    Some(Extension(0xBEDE, [0x10, 0x41, 0x00, 0x00])), [0x55, 0x66], [0x00, 0x02])

  lemma KnownParts()
    ensures Encodable(KNOWN) && FirstByte(KNOWN) == 0xB1
    ensures U16Bytes(0x1234) == [0x12, 0x34] && U16Bytes(0xBEDE) == [0xBE, 0xDE] && U16Bytes(1) == [0x00, 0x01]
  {
  }

  lemma KnownWords()
    ensures U32Bytes(0x0102_0304) == [0x01, 0x02, 0x03, 0x04] && U32Bytes(0xA1A2_A3A4) == [0xA1, 0xA2, 0xA3, 0xA4]
  {
  }

  lemma KnownFixed()
    ensures Encodable(KNOWN)
    ensures EncodeFixed(KNOWN) == [0xB1, 0xE0, 0x12, 0x34, 0x01, 0x02, 0x03, 0x04, 0xA1, 0xA2, 0xA3, 0xA4]
  {
    hide Encodable, FirstByte, U16Bytes, U32Bytes;
    KnownParts();
    KnownWords();
  }

  lemma KnownExtension()
    ensures EncodeExtension(KNOWN.extension) == [0xBE, 0xDE, 0x00, 0x01] + [0x10, 0x41, 0x00, 0x00]
  {
    hide U16Bytes;
    KnownParts();
  }

  /** One packet of section 5.1 of RFC 3550, byte by byte. */
  lemma KnownPacket()
    ensures Encodable(KNOWN)
    ensures var p := [0xB1, 0xE0, 0x12, 0x34, 0x01, 0x02, 0x03, 0x04, 0xA1, 0xA2, 0xA3, 0xA4] + [0xC1, 0xC2, 0xC3, 0xC4]
                     + ([0xBE, 0xDE, 0x00, 0x01] + [0x10, 0x41, 0x00, 0x00]) + [0x55, 0x66] + [0x00, 0x02];
            Encode(KNOWN) == p && Decode(p) == Some(KNOWN)
  {
    hide Decode, Encodable, EncodeFixed, EncodeExtension;
    KnownFixed();
    KnownExtension();
    DecodeAfterEncode(KNOWN);
  }

  /** A control packet has a whole header of eight bytes, and its type is 192 to 223. */
  lemma ControlPacketsAre(p: seq<u8>)
    ensures IsRtcp(p) <==> |p| >= 8 && (192 <= p[1] <= 223 || 64 <= p[1] <= 95)
  {
  }
}

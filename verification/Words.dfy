/** Fixed-width unsigned words and the small datatypes every other module uses.
    The words are integers with a range; wrap-around is written out with `%`. */
module Words {
  type u8 = x: int | 0 <= x < 0x100
  type u16 = x: int | 0 <= x < 0x1_0000
  type u32 = x: int | 0 <= x < 0x1_0000_0000

  datatype Option<+T> = None | Some(value: T)

  function Add16(a: int, b: int): u16 { (a + b) % 0x1_0000 }

  function Sub16(a: int, b: int): u16 { (a - b) % 0x1_0000 }

  function Add32(a: int, b: int): u32 { (a + b) % 0x1_0000_0000 }

  function Sub32(a: int, b: int): u32 { (a - b) % 0x1_0000_0000 }

  /** The signed reading of a 16-bit word: a conversion to `int16_t`. */
  function Int16(x: u16): int { if x < 0x8000 then x else x - 0x1_0000 }

  function U16At(p: seq<u8>, offset: nat): u16
    requires offset + 2 <= |p|
  {
    var high: int := p[offset];
    high * 0x100 + p[offset + 1]
  }

  function U32At(p: seq<u8>, offset: nat): u32
    requires offset + 4 <= |p|
  {
    var high: int := U16At(p, offset);
    high * 0x1_0000 + U16At(p, offset + 2)
  }

  function U16Bytes(v: u16): (b: seq<u8>)
    ensures |b| == 2 && U16At(b, 0) == v
  {
    [v / 0x100, v % 0x100]
  }

  function U32Bytes(v: u32): (b: seq<u8>)
    ensures |b| == 4 && U32At(b, 0) == v
  {
    U16Bytes(v / 0x1_0000) + U16Bytes(v % 0x1_0000)
  }

  lemma BytesOfU16(b: seq<u8>)
    requires |b| == 2
    ensures U16Bytes(U16At(b, 0)) == b
  {
  }

  lemma BytesOfU32(b: seq<u8>)
    requires |b| == 4
    ensures U32Bytes(U32At(b, 0)) == b
  {
    BytesOfU16(b[..2]);
    BytesOfU16(b[2..]);
    assert U32At(b, 0) / 0x1_0000 == U16At(b[..2], 0);
    assert U32At(b, 0) % 0x1_0000 == U16At(b[2..], 0);
    assert b == b[..2] + b[2..];
  }

  lemma BytesAt(p: seq<u8>, at: nat)
    ensures at + 2 <= |p| ==> U16Bytes(U16At(p, at)) == p[at..at + 2]
    ensures at + 4 <= |p| ==> U32Bytes(U32At(p, at)) == p[at..at + 4]
  {
    if at + 2 <= |p| {
      BytesOfU16(p[at..at + 2]);
    }
    if at + 4 <= |p| {
      BytesOfU32(p[at..at + 4]);
    }
  }

  /** A slice of a slice. */
  lemma SliceTail<T>(p: seq<T>, from: nat, to: nat, n: nat)
    requires from <= to <= |p| && n <= to - from
    ensures p[from..to][n..] == p[from + n..to]
    ensures p[from..to][..n] == p[from..from + n]
  {
  }
}

/** Calibration persistence (`CalStorage`): one 24-byte record at the start
    of a 128-byte EEPROM region, guarded by a magic number, a version, its
    own size and the CRC-32 of IEEE 802.3 (section 3.2.9, the frame check
    sequence polynomial in its reflected form 0xEDB88320).

    The EEPROM is an array of bytes owned by the storage object; the layout
    is the little-endian one of the target. */
module Storage {
  import opened Common
  import opened Float32

  // ---- CRC-32 --------------------------------------------------------

  const POLY: bv32 := 0xEDB8_8320

  /** One shift of the bitwise loop: `mask = -(crc & 1)`. */
  function Shift(crc: bv32): bv32
  {
    var mask: bv32 := 0 - (crc & 1);
    (crc >> 1) ^ (POLY & mask)
  }

  /** The textbook form of the same shift: xor the polynomial in exactly
      when the bit shifted out is 1. */
  lemma {:induction false} ShiftIsConditionalXor(crc: bv32)
    ensures Shift(crc) == if crc & 1 == 1 then (crc >> 1) ^ POLY else crc >> 1
  {
    if crc & 1 == 1 {
      assert 0 - (crc & 1) == 0xFFFF_FFFF;
    } else {
      assert 0 - (crc & 1) == 0;
    }
  }

  const BYTE_BITS: nat := 8

  function Shifts(crc: bv32, k: nat): bv32
  {
    if k == 0 then crc else Shift(Shifts(crc, k - 1))
  }

  /** The running register after `data`, one byte at a time. */
  function Register(data: seq<bv8>): bv32
    decreases |data|
  {
    if |data| == 0 then 0xFFFF_FFFF
    else Shifts(Register(data[..|data| - 1]) ^ (data[|data| - 1] as bv32), BYTE_BITS)
  }

  function Crc32(data: seq<bv8>): bv32
  {
    !Register(data)
  }

  lemma Crc32Empty()
    ensures Crc32([]) == 0
  {
  }

  /** The register after one more byte. */
  lemma {:induction false} RegisterNext(data: seq<bv8>, i: nat, c: bv32)
    requires i < |data| && c == Register(data[..i]) ^ (data[i] as bv32)
    ensures Register(data[..i + 1]) == Shifts(c, BYTE_BITS)
  {
    assert data[..i + 1][..i] == data[..i];
  }

  /** The inner loop of `crc32_ieee`: eight shifts of the register. */
  method ShiftByte(c0: bv32) returns (crc: bv32)
    ensures crc == Shifts(c0, BYTE_BITS)
  {
    crc := c0;
    var b := 0;
    while b < BYTE_BITS
      invariant 0 <= b <= BYTE_BITS
      invariant crc == Shifts(c0, b)
    {
      var mask: bv32 := 0 - (crc & 1);
      crc := (crc >> 1) ^ (POLY & mask);
      b := b + 1;
    }
  }

  lemma {:induction false} RegisterEmpty(data: seq<bv8>)
    ensures Register(data[..0]) == 0xFFFF_FFFF
  {
    assert |data[..0]| == 0;
  }

  lemma {:induction false} RegisterAll(data: seq<bv8>, crc: bv32)
    requires crc == Register(data[..|data|])
    ensures !crc == Crc32(data)
  {
    assert data[..|data|] == data;
  }

  /** `crc32_ieee`: the byte loop around the bit loop. */
  method Crc32Ieee(data: seq<bv8>) returns (c: bv32)
    ensures c == Crc32(data)
  {
    var crc: bv32 := 0xFFFF_FFFF;
    var i := 0;
    RegisterEmpty(data);
    while i < |data|
      invariant 0 <= i <= |data|
      invariant crc == Register(data[..i])
    {
      crc := crc ^ (data[i] as bv32);
      RegisterNext(data, i, crc);
      crc := ShiftByte(crc);
      i := i + 1;
    }
    RegisterAll(data, crc);
    c := !crc;
  }

  /** Record bytes as the octets the CRC reads. */
  function Octets(s: seq<u8>): (o: seq<bv8>)
    ensures |o| == |s|
  {
    seq(|s|, i requires 0 <= i < |s| => s[i] as bv8)
  }

  // ---- the record ----------------------------------------------------

  /** `CalData`; the scale is kept as the four bytes of its `float`. */
  datatype CalData = CalData(offset: i32, scale: Bits4, invert: bool, valid: bool)

  const DEFAULT_CAL: CalData := CalData(0, ONE, false, false)

  const MAGIC: u32 := 0x4858_3731
  const VERSION: u16 := 1
  const BLOB_SIZE: nat := 24
  /** The bytes the CRC covers: all of the record but its last field. */
  const CRC_SPAN: nat := 20
  const EEPROM_SIZE: nat := 128
  const EEPROM_ADDR: nat := 0

  function Le16(x: u16): (b: seq<u8>)
    ensures |b| == 2
  {
    [x % 0x100, x / 0x100]
  }

  function Le32(x: u32): (b: seq<u8>)
    ensures |b| == 4
  {
    var q1 := x / 0x100;
    var q2 := q1 / 0x100;
    [x % 0x100, q1 % 0x100, q2 % 0x100, q2 / 0x100]
  }

  function Rd16(b: seq<u8>, k: nat): u16
    requires k + 2 <= |b|
  {
    b[k] as int + 0x100 * b[k + 1] as int
  }

  function Rd32(b: seq<u8>, k: nat): u32
    requires k + 4 <= |b|
  {
    b[k] as int + 0x100 * (b[k + 1] as int + 0x100 * (b[k + 2] as int + 0x100 * b[k + 3] as int))
  }

  lemma {:induction false} Le16RoundTrip(x: u16)
    ensures Rd16(Le16(x), 0) == x
  {
  }

  lemma {:induction false} Le32RoundTrip(x: u32)
    ensures Rd32(Le32(x), 0) == x
  {
  }

  /** Reading a word and writing it back gives the same four bytes. */
  lemma {:induction false} Rd32Le32(b: seq<u8>, k: nat)
    requires k + 4 <= |b|
    ensures Le32(Rd32(b, k)) == b[k..k + 4]
  {
    var w2 := b[k + 2] as int + 0x100 * b[k + 3] as int;
    var w1 := b[k + 1] as int + 0x100 * w2;
    DivMod256(b[k + 2], b[k + 3]);
    DivMod256(b[k + 1], w2);
    DivMod256(b[k], w1);
  }

  lemma {:induction false} DivMod256(lo: int, hi: int)
    requires 0 <= lo < 0x100
    ensures (lo + 0x100 * hi) / 0x100 == hi && (lo + 0x100 * hi) % 0x100 == lo
  {
  }

  /** An `int32_t` as its two's-complement bit pattern, and back. */
  function I32Bits(x: i32): u32
  {
    if x < 0 then x + TWO_32 else x
  }

  function BitsI32(w: u32): i32
  {
    if w >= 0x8000_0000 then w - TWO_32 else w
  }

  lemma {:induction false} I32RoundTrip(x: i32)
    ensures BitsI32(I32Bits(x)) == x
  {
  }

  function Flag(b: bool): u8 { if b then 1 else 0 }

  /** The record's first 20 bytes: magic, version, size, offset, scale,
      invert, valid and two zero reserved bytes. */
  function Body(cal: CalData): (b: seq<u8>)
    ensures |b| == CRC_SPAN
  {
    Le32(MAGIC) + Le16(VERSION) + Le16(BLOB_SIZE) + Le32(I32Bits(cal.offset))
    + cal.scale + [Flag(cal.invert), Flag(cal.valid), 0, 0]
  }

  /** `BlobV1` as `save` fills it in. */
  function Blob(cal: CalData): (b: seq<u8>)
    ensures |b| == BLOB_SIZE
  {
    Body(cal) + Le32(Crc32(Octets(Body(cal))) as int)
  }

  /** `load`'s checks, in order, on the bytes at `EEPROM_ADDR`. */
  function Parse(img: seq<u8>): (r: Option<CalData>)
    requires BLOB_SIZE <= |img|
  {
    if Rd32(img, 0) != MAGIC then None
    else if Rd16(img, 4) != VERSION then None
    else if Rd16(img, 6) != BLOB_SIZE then None
    else if Rd32(img, CRC_SPAN) != Crc32(Octets(img[..CRC_SPAN])) as int then None
    else Some(CalData(BitsI32(Rd32(img, 8)), img[12..16], img[16] != 0, img[17] != 0))
  }

  /** What `load` leaves in `cal`: the stored record, or `fallback` when
      the image is rejected. */
  function ParseOr(img: seq<u8>, fallback: CalData): (c: CalData)
    requires BLOB_SIZE <= |img|
    ensures Parse(img).Some? ==> c == Parse(img).value
    ensures Parse(img).None? ==> c == fallback
  {
    match Parse(img)
    case Some(c) => c
    case None => fallback
  }

  /** The region after `reset`. */
  function Erased(): (e: seq<u8>)
    ensures |e| == EEPROM_SIZE
  {
    seq(EEPROM_SIZE, _ => 0xFF)
  }

  // ---- properties ----------------------------------------------------

  /** The record fits the region. */
  lemma BlobFits()
    ensures EEPROM_ADDR + BLOB_SIZE <= EEPROM_SIZE
  {
  }

  /** The default calibration: offset 0, scale 1.0, not inverted, invalid. */
  lemma DefaultCalIsUnit()
    ensures DEFAULT_CAL.offset == 0 && Decode(DEFAULT_CAL.scale) == Finite(1.0)
    ensures !DEFAULT_CAL.invert && !DEFAULT_CAL.valid
  {
    OneIsOne();
  }

  /** `save` then `load`: every field comes back, whatever follows the record. */
  lemma {:induction false} SaveLoadRoundTrip(cal: CalData, rest: seq<u8>)
    ensures Parse(Blob(cal) + rest) == Some(cal)
  {
    var img := Blob(cal) + rest;
    BlobLayout(cal, rest);
    ParseAcceptsExactly(img);
    Word32Matches(img, 8, I32Bits(cal.offset));
    I32RoundTrip(cal.offset);
  }

  /** Where `save` puts each field, read back in an image that starts with
      the record. */
  lemma {:induction false} BlobLayout(cal: CalData, rest: seq<u8>)
    ensures var img := Blob(cal) + rest;
      |img| >= BLOB_SIZE
      && img[..CRC_SPAN] == Body(cal)
      && img[0..4] == Le32(MAGIC) && img[4..6] == Le16(VERSION) && img[6..8] == Le16(BLOB_SIZE)
      && img[8..12] == Le32(I32Bits(cal.offset)) && img[12..16] == cal.scale
      && img[16] == Flag(cal.invert) && img[17] == Flag(cal.valid)
      && img[CRC_SPAN..BLOB_SIZE] == Le32(Crc32(Octets(Body(cal))) as int)
  {
    var img := Blob(cal) + rest;
    var body := Body(cal);
    assert img[..CRC_SPAN] == body;
    assert img[CRC_SPAN..BLOB_SIZE] == Le32(Crc32(Octets(body)) as int);
    BodyLayout(cal);
    assert img[0..4] == body[0..4];
    assert img[4..6] == body[4..6];
    assert img[6..8] == body[6..8];
    assert img[8..12] == body[8..12];
    assert img[12..16] == body[12..16];
  }

  /** The fields of the first 20 bytes, at their offsets. */
  lemma {:induction false} BodyLayout(cal: CalData)
    ensures var b := Body(cal);
      b[0..4] == Le32(MAGIC) && b[4..6] == Le16(VERSION) && b[6..8] == Le16(BLOB_SIZE)
      && b[8..12] == Le32(I32Bits(cal.offset)) && b[12..16] == cal.scale
      && b[16] == Flag(cal.invert) && b[17] == Flag(cal.valid)
  {
  }

  /** `load` accepts exactly the images whose header is this record's and
      whose CRC field matches the CRC of the first 20 bytes. */
  lemma {:induction false} ParseAcceptsExactly(img: seq<u8>)
    requires BLOB_SIZE <= |img|
    ensures Parse(img).Some? <==>
              img[0..4] == Le32(MAGIC) && img[4..6] == Le16(VERSION)
              && img[6..8] == Le16(BLOB_SIZE)
              && img[CRC_SPAN..BLOB_SIZE] == Le32(Crc32(Octets(img[..CRC_SPAN])) as int)
  {
    Word32Matches(img, 0, MAGIC);
    Word16Matches(img, 4, VERSION);
    Word16Matches(img, 6, BLOB_SIZE);
    Word32Matches(img, CRC_SPAN, Crc32(Octets(img[..CRC_SPAN])) as int);
  }

  /** A 32-bit field holds `x` exactly when its bytes are `x`'s. */
  lemma {:induction false} Word32Matches(b: seq<u8>, k: nat, x: u32)
    requires k + 4 <= |b|
    ensures Rd32(b, k) == x <==> b[k..k + 4] == Le32(x)
  {
    Rd32Le32(b, k);
    Le32RoundTrip(x);
    if b[k..k + 4] == Le32(x) {
      Le32RoundTrip(Rd32(b, k));
    }
  }

  lemma {:induction false} Word16Matches(b: seq<u8>, k: nat, x: u16)
    requires k + 2 <= |b|
    ensures Rd16(b, k) == x <==> b[k..k + 2] == Le16(x)
  {
    DivMod256(b[k], b[k + 1]);
    assert Le16(Rd16(b, k)) == b[k..k + 2];
    Le16RoundTrip(x);
    if b[k..k + 2] == Le16(x) {
      Le16RoundTrip(Rd16(b, k));
    }
  }

  /** A saved record whose CRC field alone was altered no longer loads. */
  lemma {:induction false} CrcTamperRejected(cal: CalData, img: seq<u8>)
    requires BLOB_SIZE <= |img|
    requires img[..CRC_SPAN] == Body(cal)
    requires img[CRC_SPAN..BLOB_SIZE] != Blob(cal)[CRC_SPAN..]
    ensures Parse(img) == None
  {
    Rd32Le32(img, CRC_SPAN);
    assert Blob(cal)[CRC_SPAN..] == Le32(Crc32(Octets(Body(cal))) as int);
  }

  /** An erased region fails the magic check. */
  lemma ErasedRejected()
    ensures Parse(Erased()) == None
  {
    var e := Erased();
    assert e[0] == 0xFF && e[1] == 0xFF && e[2] == 0xFF && e[3] == 0xFF;
    assert Rd32(e, 0) == 0xFFFF_FFFF;
  }

  // ---- the class -----------------------------------------------------

  class CalStorage {
    const eeprom: array<u8>

    ghost predicate Valid()
      reads this
    {
      eeprom.Length == EEPROM_SIZE
    }

    /** The region holds whatever the flash held at power-up. */
    constructor (initial: seq<u8>)
      requires |initial| == EEPROM_SIZE
      ensures Valid() && eeprom[..] == initial && fresh(eeprom)
    {
      eeprom := new u8[EEPROM_SIZE](i requires 0 <= i < EEPROM_SIZE => initial[i]);
      new;
      assert eeprom[..] == initial;
    }

    method Save(cal: CalData) returns (ok: bool)
      requires Valid()
      modifies eeprom
      ensures Valid() && ok
      ensures eeprom[..] == Blob(cal) + old(eeprom[..])[BLOB_SIZE..]
    {
      var body := Le32(MAGIC) + Le16(VERSION) + Le16(BLOB_SIZE) + Le32(I32Bits(cal.offset))
                  + cal.scale + [Flag(cal.invert), Flag(cal.valid), 0, 0];
      var crc := Crc32Ieee(Octets(body));
      var p := body + Le32(crc as int);
      assert p == Blob(cal);
      var i := 0;
      while i < BLOB_SIZE
        invariant 0 <= i <= BLOB_SIZE
        invariant forall j :: 0 <= j < i ==> eeprom[j] == p[j]
        invariant forall j :: i <= j < EEPROM_SIZE ==> eeprom[j] == old(eeprom[j])
      {
        eeprom[EEPROM_ADDR + i] := p[i];
        i := i + 1;
      }
      assert eeprom[..] == p + old(eeprom[..])[BLOB_SIZE..];
      ok := true;
    }

    /** `load`: on failure `cal` comes back unchanged. */
    method Load(cal: CalData) returns (ok: bool, r: CalData)
      requires Valid()
      ensures ok <==> Parse(eeprom[..]).Some?
      ensures ok ==> r == Parse(eeprom[..]).value
      ensures !ok ==> r == cal
      ensures r == ParseOr(eeprom[..], cal)
    {
      r := cal;
      var p: seq<u8> := [];
      var i := 0;
      while i < BLOB_SIZE
        invariant 0 <= i <= BLOB_SIZE
        invariant p == eeprom[EEPROM_ADDR..EEPROM_ADDR + i]
      {
        p := p + [eeprom[EEPROM_ADDR + i]];
        i := i + 1;
      }
      ParsePrefix(eeprom[..], p);
      if Rd32(p, 0) != MAGIC { return false, r; }
      if Rd16(p, 4) != VERSION { return false, r; }
      if Rd16(p, 6) != BLOB_SIZE { return false, r; }
      var crc := Rd32(p, CRC_SPAN);
      var computed := Crc32Ieee(Octets(p[..CRC_SPAN]));
      if crc != computed as int { return false, r; }
      r := CalData(BitsI32(Rd32(p, 8)), p[12..16], p[16] != 0, p[17] != 0);
      ok := true;
    }

    method Reset() returns (ok: bool)
      requires Valid()
      modifies eeprom
      ensures Valid() && ok && eeprom[..] == Erased()
    {
      var i := 0;
      while i < EEPROM_SIZE
        invariant 0 <= i <= EEPROM_SIZE
        invariant forall j :: 0 <= j < i ==> eeprom[j] == 0xFF
      {
        eeprom[i] := 0xFF;
        i := i + 1;
      }
      ok := true;
    }
  }

  /** `load` only looks at the first 24 bytes. */
  lemma {:induction false} ParsePrefix(e: seq<u8>, p: seq<u8>)
    requires BLOB_SIZE <= |e| && p == e[..BLOB_SIZE]
    ensures Parse(p) == Parse(e)
  {
    assert p[..CRC_SPAN] == e[..CRC_SPAN];
    assert Rd32(p, 0) == Rd32(e, 0) && Rd32(p, 8) == Rd32(e, 8) && Rd32(p, CRC_SPAN) == Rd32(e, CRC_SPAN);
    assert Rd16(p, 4) == Rd16(e, 4) && Rd16(p, 6) == Rd16(e, 6);
    assert p[12..16] == e[12..16];
  }
}

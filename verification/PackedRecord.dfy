/** The packed expert record: a fixed little-endian header and three sections of finite scalars. */
module PackedRecord {
  import opened Wrappers
  import opened Router

  type Byte = b: int | 0 <= b < 256 witness 0

  // ----- little-endian integers -----

  function Pow256(width: nat): (power: nat)
    ensures power > 0
  {
    if width == 0 then 1 else 256 * Pow256(width - 1)
  }

  function LittleEndian(n: nat, width: nat): (bytes: seq<Byte>)
    ensures |bytes| == width
  {
    if width == 0 then [] else [n % 256] + LittleEndian(n / 256, width - 1)
  }

  function FromLittleEndian(bytes: seq<Byte>): (n: nat)
    ensures n < Pow256(|bytes|)
  {
    if bytes == [] then 0 else bytes[0] + 256 * FromLittleEndian(bytes[1..])
  }

  lemma {:induction false} ReadsBack(n: nat, width: nat)
    requires n < Pow256(width)
    ensures FromLittleEndian(LittleEndian(n, width)) == n
    decreases width
  {
    if width == 0 {
    } else {
      ReadsBack(n / 256, width - 1);
      assert LittleEndian(n, width)[1..] == LittleEndian(n / 256, width - 1);
    }
  }

  lemma {:induction false} WritesBack(bytes: seq<Byte>)
    ensures LittleEndian(FromLittleEndian(bytes), |bytes|) == bytes
    decreases bytes
  {
    if bytes == [] {
    } else {
      WritesBack(bytes[1..]);
      var n := FromLittleEndian(bytes);
      assert n % 256 == bytes[0] && n / 256 == FromLittleEndian(bytes[1..]);
      assert bytes == [bytes[0]] + bytes[1..];
    }
  }

  /** The lowest byte comes first: byte `i` counts the multiples of 256 to the power `i`. */
  lemma {:induction false} LittleEndianAt(n: nat, width: nat, i: nat)
    requires i < width
    ensures LittleEndian(n, width)[i] == n / Pow256(i) % 256
    decreases i
  {
    if i == 0 {
      assert Pow256(0) == 1;
    } else {
      LittleEndianAt(n / 256, width - 1, i - 1);
      DividedTwice(n, Pow256(i - 1));
    }
  }

  lemma {:induction false} DividedTwice(n: nat, divisor: nat)
    requires divisor > 0
    ensures n / 256 / divisor == n / (256 * divisor)
  {
    var rest := n / 256 % divisor;
    var quotient := n / 256 / divisor;
    assert n / 256 == quotient * divisor + rest;
    var low := n % 256;
    assert n == 256 * (quotient * divisor + rest) + low;
    assert quotient * (256 * divisor) == 256 * (quotient * divisor);
    QuotientIs(n, 256 * divisor, quotient);
  }

  lemma {:induction false} QuotientIs(n: nat, divisor: nat, quotient: nat)
    requires divisor > 0 && quotient * divisor <= n < quotient * divisor + divisor
    ensures n / divisor == quotient
  {
    var actual, rest := n / divisor, n % divisor;
    assert n == actual * divisor + rest;
    if actual < quotient {
      Scaled(actual + 1, quotient, divisor);
    } else if quotient < actual {
      Scaled(quotient + 1, actual, divisor);
    }
  }

  lemma {:induction false} Scaled(a: nat, b: nat, factor: nat)
    requires a <= b
    ensures a * factor <= b * factor
  {
  }

  // ----- scalars -----

  const F32_CODE: nat := 1
  const BF16_CODE: nat := 2

  datatype PackedScalarType = F32 | Bf16 {
    function Code(): nat {
      if F32? then F32_CODE else BF16_CODE
    }

    function ByteWidth(): (width: nat)
      ensures width == 2 || width == 4
    {
      if F32? then 4 else 2
    }
  }

  function FromCode(code: nat): Result<PackedScalarType> {
    if code == F32_CODE then Ok(F32) else if code == BF16_CODE then Ok(Bf16) else Err(InvalidTensor)
  }

  const WORD: nat := 0x1_0000_0000

  /** A binary32 value by its bits: finite exactly when not all exponent bits are set (section 3.4 of IEEE 754-2019). */
  predicate Finite(bits: nat) {
    (bits / 0x80_0000) % 0x100 != 0xFF
  }

  /** The bits of the value that a stored scalar stands for; a BF16 scalar is the upper half of a binary32 value. */
  function DecodeScalar(chunk: seq<Byte>, scalarType: PackedScalarType): Result<nat> {
    if |chunk| != scalarType.ByteWidth() then Err(InvalidTensor)
    else if scalarType.F32? then Ok(FromLittleEndian(chunk))
    else Ok(FromLittleEndian(chunk) * 0x1_0000)
  }

  /** The bytes that a value is stored as. */
  function EncodeScalar(bits: nat, scalarType: PackedScalarType): (bytes: seq<Byte>)
    ensures |bytes| == scalarType.ByteWidth()
  {
    if scalarType.F32? then LittleEndian(bits, 4) else LittleEndian(bits / 0x1_0000, 2)
  }

  /** The values a scalar type can store. */
  predicate Storable(bits: nat, scalarType: PackedScalarType) {
    bits < WORD && (scalarType.Bf16? ==> bits % 0x1_0000 == 0)
  }

  lemma {:induction false} ScalarRoundTrip(chunk: seq<Byte>, scalarType: PackedScalarType)
    requires |chunk| == scalarType.ByteWidth()
    ensures DecodeScalar(chunk, scalarType).Ok?
    ensures var bits := DecodeScalar(chunk, scalarType).value;
            Storable(bits, scalarType) && EncodeScalar(bits, scalarType) == chunk
  {
    WritesBack(chunk);
    assert Pow256(2) == 0x1_0000 && Pow256(4) == WORD;
  }

  lemma {:induction false} ValueRoundTrip(bits: nat, scalarType: PackedScalarType)
    requires Storable(bits, scalarType)
    ensures DecodeScalar(EncodeScalar(bits, scalarType), scalarType) == Ok(bits)
  {
    assert Pow256(2) == 0x1_0000 && Pow256(4) == WORD;
    if scalarType.F32? {
      ReadsBack(bits, 4);
    } else {
      ReadsBack(bits / 0x1_0000, 2);
    }
  }

  /** A BF16 scalar is finite by its own eight exponent bits. */
  lemma {:induction false} Bf16IsFinite(chunk: seq<Byte>)
    requires |chunk| == 2
    ensures Finite(DecodeScalar(chunk, Bf16).value) <==> (FromLittleEndian(chunk) / 0x80) % 0x100 != 0xFF
  {
    var u := FromLittleEndian(chunk);
    assert u * 0x1_0000 / 0x80_0000 == u / 0x80;
  }

  /** Whatever its sign, a 32-bit value is finite exactly when its magnitude is below that of infinity. */
  lemma {:induction false} FiniteIsBelowInfinity(bits: nat)
    requires bits < WORD
    ensures Finite(bits) <==> bits % 0x8000_0000 < 0x7F80_0000
  {
    var magnitude := bits % 0x8000_0000;
    assert magnitude / 0x80_0000 == bits / 0x80_0000 % 0x100;
  }

  // ----- sections -----

  /** The values of a section, one scalar after the other. */
  function Values(bytes: seq<Byte>, scalarType: PackedScalarType): (values: seq<nat>)
    requires |bytes| % scalarType.ByteWidth() == 0
    ensures |values| * scalarType.ByteWidth() == |bytes|
  {
    var width := scalarType.ByteWidth();
    if bytes == [] then [] else [DecodeScalar(bytes[..width], scalarType).value] + Values(bytes[width..], scalarType)
  }

  function Stored(values: seq<nat>, scalarType: PackedScalarType): (bytes: seq<Byte>)
    ensures |bytes| == |values| * scalarType.ByteWidth()
  {
    if values == [] then [] else EncodeScalar(values[0], scalarType) + Stored(values[1..], scalarType)
  }

  predicate AllFinite(values: seq<nat>) {
    forall i | 0 <= i < |values| :: Finite(values[i])
  }

  /** Decoding a section loses nothing: storing its values again gives the same bytes. */
  lemma {:induction false} SectionIsLossless(bytes: seq<Byte>, scalarType: PackedScalarType)
    requires |bytes| % scalarType.ByteWidth() == 0
    ensures Stored(Values(bytes, scalarType), scalarType) == bytes
    ensures forall i | 0 <= i < |Values(bytes, scalarType)| :: Storable(Values(bytes, scalarType)[i], scalarType)
    decreases bytes
  {
    var width := scalarType.ByteWidth();
    if bytes == [] {
    } else {
      hide DecodeScalar, EncodeScalar, FromLittleEndian, Storable;
      ScalarRoundTrip(bytes[..width], scalarType);
      OneScalarLess(|bytes|, scalarType);
      SectionIsLossless(bytes[width..], scalarType);
      assert Values(bytes, scalarType)[1..] == Values(bytes[width..], scalarType);
      assert bytes == bytes[..width] + bytes[width..];
    }
  }

  lemma {:induction false} OneScalarLess(length: nat, scalarType: PackedScalarType)
    requires length > 0 && length % scalarType.ByteWidth() == 0
    ensures length >= scalarType.ByteWidth() && (length - scalarType.ByteWidth()) % scalarType.ByteWidth() == 0
  {
    if scalarType.F32? {
    } else {
    }
  }

  /** Storing values loses nothing: the section decodes to the same values. */
  lemma {:induction false} ValuesSurvive(values: seq<nat>, scalarType: PackedScalarType)
    requires forall i | 0 <= i < |values| :: Storable(values[i], scalarType)
    ensures |Stored(values, scalarType)| % scalarType.ByteWidth() == 0
    ensures Values(Stored(values, scalarType), scalarType) == values
    decreases values
  {
    var width := scalarType.ByteWidth();
    if values == [] {
    } else {
      ValueRoundTrip(values[0], scalarType);
      ValuesSurvive(values[1..], scalarType);
      var bytes := Stored(values, scalarType);
      assert bytes[..width] == EncodeScalar(values[0], scalarType) && bytes[width..] == Stored(values[1..], scalarType);
      assert values == [values[0]] + values[1..];
    }
  }

  /** Checks that every scalar of a section is finite. */
  method ValidateScalarBytes(bytes: seq<Byte>, scalarType: PackedScalarType) returns (result: Result<()>)
    ensures result.Ok? <==> |bytes| % scalarType.ByteWidth() == 0 && AllFinite(Values(bytes, scalarType))
    ensures result.Err? ==> result.error == InvalidTensor
  {
    hide Values, Finite, DecodeScalar;
    var width := scalarType.ByteWidth();
    if |bytes| % width != 0 {
      return Err(InvalidTensor);
    }
    var start := 0;
    assert bytes[0..] == bytes;
    while start < |bytes|
      invariant start <= |bytes| && (|bytes| - start) % width == 0
      invariant AllFinite(Values(bytes, scalarType)) <==> AllFinite(Values(bytes[start..], scalarType))
    {
      var value := NextScalar(bytes, start, scalarType);
      FirstIsFinite(value, Values(bytes[start + width..], scalarType));
      if !Finite(value) {
        return Err(InvalidTensor);
      }
      start := start + width;
    }
    NoScalars(bytes, start, scalarType);
    result := Ok(());
  }

  /** Decodes the scalar at `start`. */
  method NextScalar(bytes: seq<Byte>, start: nat, scalarType: PackedScalarType) returns (value: nat)
    requires start < |bytes| && (|bytes| - start) % scalarType.ByteWidth() == 0
    ensures start + scalarType.ByteWidth() <= |bytes| &&
            (|bytes| - start - scalarType.ByteWidth()) % scalarType.ByteWidth() == 0
    ensures Values(bytes[start..], scalarType) == [value] + Values(bytes[start + scalarType.ByteWidth()..], scalarType)
  {
    hide PackedScalarType.ByteWidth;
    var width, rest := scalarType.ByteWidth(), bytes[start..];
    AlignedStep(|bytes| - start, scalarType);
    assert bytes[start..start + width] == rest[..width] && bytes[start + width..] == rest[width..];
    value := DecodeScalar(bytes[start..start + width], scalarType).value;
  }

  lemma {:induction false} AlignedStep(length: nat, scalarType: PackedScalarType)
    requires length > 0 && length % scalarType.ByteWidth() == 0
    ensures length >= scalarType.ByteWidth() && (length - scalarType.ByteWidth()) % scalarType.ByteWidth() == 0
  {
    if scalarType.F32? {
      assert scalarType.ByteWidth() == 4;
    } else {
      assert scalarType.ByteWidth() == 2;
    }
  }

  lemma {:induction false} NoScalars(bytes: seq<Byte>, start: nat, scalarType: PackedScalarType)
    requires start == |bytes|
    ensures Values(bytes[start..], scalarType) == []
  {
    assert bytes[start..] == [];
  }

  lemma {:induction false} FirstIsFinite(value: nat, rest: seq<nat>)
    ensures AllFinite([value] + rest) <==> Finite(value) && AllFinite(rest)
  {
    var values := [value] + rest;
    assert values[0] == value && forall i | 0 <= i < |rest| :: values[i + 1] == rest[i];
  }

  /** Decodes a section scalar by scalar. */
  method DecodeScalarBytes(bytes: seq<Byte>, scalarType: PackedScalarType) returns (result: Result<seq<nat>>)
    ensures result.Ok? <==> |bytes| % scalarType.ByteWidth() == 0
    ensures result.Ok? ==> result.value == Values(bytes, scalarType)
    ensures result.Err? ==> result.error == InvalidTensor
  {
    hide Values, DecodeScalar;
    var width := scalarType.ByteWidth();
    if |bytes| % width != 0 {
      return Err(InvalidTensor);
    }
    var values: seq<nat>, start := [], 0;
    assert bytes[0..] == bytes && [] + Values(bytes, scalarType) == Values(bytes, scalarType);
    while start < |bytes|
      invariant start <= |bytes| && (|bytes| - start) % width == 0
      invariant values + Values(bytes[start..], scalarType) == Values(bytes, scalarType)
    {
      var value := NextScalar(bytes, start, scalarType);
      ghost var later := Values(bytes[start + width..], scalarType);
      assert values + ([value] + later) == values + [value] + later;
      values, start := values + [value], start + width;
    }
    NoScalars(bytes, start, scalarType);
    result := Ok(values);
  }

  // ----- the record -----

  const MAGIC: seq<Byte> := [0x41, 0x33, 0x53, 0x4D, 0x4F, 0x45, 0x50, 0x4B]
  const VERSION: nat := 1
  const HEADER_BYTES: nat := 64
  const U64: nat := 0x1_0000_0000_0000_0000

  /** A machine whose `usize` has `limit` values, at least 32 and at most 64 bits. */
  datatype Platform = Platform(limit: nat) {
    predicate Valid() {
      WORD <= limit <= U64
    }

    function CheckedMul(a: nat, b: nat): Option<nat> {
      if a * b < limit then Some(a * b) else None
    }

    function CheckedAdd(a: nat, b: nat): Option<nat> {
      if a + b < limit then Some(a + b) else None
    }
  }

  function SectionBytes(platform: Platform, config: MoeLayerConfig, scalarType: PackedScalarType): Option<nat> {
    match platform.CheckedMul(config.hiddenSize, config.intermediateSize)
    case None => None
    case Some(elements) => platform.CheckedMul(elements, scalarType.ByteWidth())
  }

  datatype Sections = Sections(gate: seq<Byte>, up: seq<Byte>, down: seq<Byte>)

  predicate SectionFits(bytes: seq<Byte>, size: nat, scalarType: PackedScalarType) {
    |bytes| == size && |bytes| % scalarType.ByteWidth() == 0 && AllFinite(Values(bytes, scalarType))
  }

  /**
   What the encoder demands: representable dimensions, sections of exactly the right size with finite scalars, and
   lengths that do not overflow.
   */
  predicate Encodable(platform: Platform, config: MoeLayerConfig, scalarType: PackedScalarType, sections: Sections) {
    && config.Valid() && config.hiddenSize < WORD && config.intermediateSize < WORD
    && var size := SectionBytes(platform, config, scalarType);
    && size.Some?
    && SectionFits(sections.gate, size.value, scalarType)
    && SectionFits(sections.up, size.value, scalarType)
    && SectionFits(sections.down, size.value, scalarType)
    && size.value * 3 < platform.limit && HEADER_BYTES + size.value * 3 < platform.limit
  }

  /** The payload of a record, from its last field forward. */
  function Payload(sections: Sections): seq<Byte> {
    sections.gate + (sections.up + sections.down)
  }

  /** The length fields of the header, and what follows them. */
  function Lengths(size: nat, rest: seq<Byte>): seq<Byte> {
    LittleEndian(size, 8) + (LittleEndian(size, 8)
                             + (LittleEndian(size, 8) + (LittleEndian(size * 3, 8) + (LittleEndian(0, 8) + rest))))
  }

  /** The header, and what follows it. */
  function Header(config: MoeLayerConfig, scalarType: PackedScalarType, size: nat, rest: seq<Byte>): seq<Byte> {
    MAGIC + (LittleEndian(VERSION, 2) + (LittleEndian(scalarType.Code(), 2) + (LittleEndian(HEADER_BYTES, 4)
    + (LittleEndian(config.hiddenSize, 4) + (LittleEndian(config.intermediateSize, 4) + Lengths(size, rest))))))
  }

  /** The record of some sections. */
  function Encoded(config: MoeLayerConfig, scalarType: PackedScalarType, sections: Sections): seq<Byte> {
    Header(config, scalarType, |sections.gate|, Payload(sections))
  }

  method EncodeRaw(platform: Platform, config: MoeLayerConfig, scalarType: PackedScalarType, sections: Sections)
    returns (result: Result<seq<Byte>>)
    requires platform.Valid()
    ensures result.Ok? <==> Encodable(platform, config, scalarType, sections)
    ensures result.Ok? ==> result.value == Encoded(config, scalarType, sections)
  {
    if !config.Valid() || config.hiddenSize >= WORD || config.intermediateSize >= WORD {
      return Err(InvalidConfig);
    }
    var expected := SectionBytes(platform, config, scalarType);
    if expected.None? {
      return Err(InvalidTensor);
    }
    var parts := [sections.gate, sections.up, sections.down];
    for i := 0 to 3
      invariant forall j | 0 <= j < i :: SectionFits(parts[j], expected.value, scalarType)
    {
      if |parts[i]| != expected.value {
        return Err(InvalidTensor);
      }
      var valid := ValidateScalarBytes(parts[i], scalarType);
      if valid.Err? {
        return Err(InvalidTensor);
      }
    }
    assert SectionFits(parts[0], expected.value, scalarType) && SectionFits(parts[1], expected.value, scalarType) &&
           SectionFits(parts[2], expected.value, scalarType);
    var payload := platform.CheckedMul(expected.value, 3);
    if payload.None? {
      return Err(InvalidTensor);
    }
    if platform.CheckedAdd(HEADER_BYTES, payload.value).None? {
      return Err(InvalidTensor);
    }
    var encoded: seq<Byte> := LittleEndian(0, 8) + (sections.gate + (sections.up + sections.down));
    encoded := LittleEndian(expected.value, 8) + (LittleEndian(expected.value, 8)
                                                  + (LittleEndian(expected.value, 8)
                                                     + (LittleEndian(payload.value, 8) + encoded)));
    encoded := LittleEndian(HEADER_BYTES, 4) + (LittleEndian(config.hiddenSize, 4)
                                                + (LittleEndian(config.intermediateSize, 4) + encoded));
    encoded := MAGIC + (LittleEndian(VERSION, 2) + (LittleEndian(scalarType.Code(), 2) + encoded));
    result := Ok(encoded);
  }

  // ----- parsing -----

  function ReadExact(bytes: seq<Byte>, offset: nat, width: nat): Result<seq<Byte>> {
    if offset + width <= |bytes| then Ok(bytes[offset..offset + width]) else Err(InvalidTensor)
  }

  function ReadNat(bytes: seq<Byte>, offset: nat, width: nat): Result<nat> {
    var exact :- ReadExact(bytes, offset, width);
    Ok(FromLittleEndian(exact))
  }

  function ReadLength(platform: Platform, bytes: seq<Byte>, offset: nat): Result<nat> {
    var length :- ReadNat(bytes, offset, 8);
    if length < platform.limit then Ok(length) else Err(InvalidTensor)
  }

  /** A parsed record: its bytes and where its three sections lie. */
  datatype Record = Record(scalarType: PackedScalarType, config: MoeLayerConfig, encoded: seq<Byte>, size: nat) {
    predicate Valid() {
      |encoded| == HEADER_BYTES + 3 * size
    }

    function GetSections(): Sections
      requires Valid()
    {
      Sections(encoded[HEADER_BYTES..HEADER_BYTES + size], encoded[HEADER_BYTES + size..HEADER_BYTES + 2 * size],
               encoded[HEADER_BYTES + 2 * size..HEADER_BYTES + 3 * size])
    }
  }

  /** The header's checks, in the order of its fields; what remains is the scalar type and the size of a section. */
  function ParseHeader(platform: Platform, encoded: seq<Byte>,
                       expected: MoeLayerConfig): (result: Result<(PackedScalarType, nat)>)
  {
    var magic :- ReadExact(encoded, 0, 8);
    if magic != MAGIC then Err(InvalidTensor) else
    var version :- ReadNat(encoded, 8, 2);
    if version != VERSION then Err(InvalidTensor) else
    var code :- ReadNat(encoded, 10, 2);
    var scalarType :- FromCode(code);
    var headerBytes :- ReadNat(encoded, 12, 4);
    if headerBytes != HEADER_BYTES then Err(InvalidTensor) else
    var hiddenSize :- ReadNat(encoded, 16, 4);
    var intermediateSize :- ReadNat(encoded, 20, 4);
    if hiddenSize != expected.hiddenSize || intermediateSize != expected.intermediateSize then Err(InvalidTensor) else
    match SectionBytes(platform, expected, scalarType)
    case None => Err(InvalidTensor)
    case Some(size) =>
      var gate :- ReadLength(platform, encoded, 24);
      var up :- ReadLength(platform, encoded, 32);
      var down :- ReadLength(platform, encoded, 40);
      if gate != size || up != size || down != size then Err(InvalidTensor) else
      var payload :- ReadLength(platform, encoded, 48);
      match platform.CheckedMul(size, 3)
      case None => Err(InvalidTensor)
      case Some(expectedPayload) =>
        if payload != expectedPayload then Err(InvalidTensor) else
        var reserved :- ReadNat(encoded, 56, 8);
        if reserved != 0 then Err(InvalidTensor) else
        match platform.CheckedAdd(HEADER_BYTES, expectedPayload)
        case None => Err(InvalidTensor)
        case Some(total) => if |encoded| != total then Err(InvalidTensor) else Ok((scalarType, size))
  }

  function Parse(platform: Platform, encoded: seq<Byte>, expected: MoeLayerConfig): (result: Result<Record>)
    ensures result.Ok? ==> result.value.Valid() && result.value.config == expected && result.value.encoded == encoded
  {
    if !expected.Valid() then Err(InvalidConfig)
    else if |encoded| < HEADER_BYTES then Err(InvalidTensor)
    else
      var (scalarType, size) :- ParseHeader(platform, encoded, expected);
      var record := Record(scalarType, expected, encoded, size);
      var sections := record.GetSections();
      if SectionFits(sections.gate, size, scalarType) && SectionFits(sections.up, size, scalarType) &&
        SectionFits(sections.down, size, scalarType)
      then Ok(record) else Err(InvalidTensor)
  }

  // ----- encoding and parsing are inverse -----

  /** Reading a field at its place, and what is left behind it. */
  lemma {:induction false} FieldAt(whole: seq<Byte>, offset: nat, field: seq<Byte>, tail: seq<Byte>)
    requires offset <= |whole| && whole[offset..] == field + tail
    ensures offset + |field| <= |whole| && ReadExact(whole, offset, |field|) == Ok(field)
    ensures whole[offset + |field|..] == tail
  {
    assert whole[offset..offset + |field|] == whole[offset..][..|field|];
    assert whole[offset + |field|..] == whole[offset..][|field|..];
  }

  predicate Holds(whole: seq<Byte>, offset: nat, field: seq<Byte>) {
    ReadExact(whole, offset, |field|) == Ok(field)
  }

  lemma {:induction false} NatHeld(whole: seq<Byte>, offset: nat, n: nat, width: nat)
    requires n < Pow256(width) && Holds(whole, offset, LittleEndian(n, width))
    ensures ReadNat(whole, offset, width) == Ok(n)
  {
    ReadsBack(n, width);
  }

  lemma {:induction false} Powers()
    ensures Pow256(2) == 0x1_0000 && Pow256(4) == WORD && Pow256(8) == U64
  {
    assert Pow256(2) == 0x1_0000;
    assert Pow256(4) == WORD;
    assert Pow256(6) == 0x1_0000_0000_0000;
  }

  /** Every encoded record is accepted, and its sections come back. */
  lemma {:induction false} ParseOfEncoded(platform: Platform, config: MoeLayerConfig, scalarType: PackedScalarType,
                                          sections: Sections)
    requires platform.Valid() && Encodable(platform, config, scalarType, sections)
    ensures Parse(platform, Encoded(config, scalarType, sections), config).Ok?
    ensures var record := Parse(platform, Encoded(config, scalarType, sections), config).value;
            record.scalarType == scalarType && record.GetSections() == sections
  {
    hide Pow256, LittleEndian, FromLittleEndian, AllFinite, Values;
    var whole, size := Encoded(config, scalarType, sections), |sections.gate|;
    HeaderOfEncoded(platform, config, scalarType, sections);
    PayloadOfEncoded(whole, size, sections);
  }

  lemma {:induction false} PayloadOfEncoded(whole: seq<Byte>, size: nat, sections: Sections)
    requires |whole| >= HEADER_BYTES && whole[HEADER_BYTES..] == Payload(sections)
    requires |sections.gate| == |sections.up| == |sections.down| == size
    ensures |whole| == HEADER_BYTES + 3 * size
    ensures Record(F32, MoeLayerConfig(0, 0, 0, 0, false), whole, size).GetSections() == sections
  {
    FieldAt(whole, HEADER_BYTES, sections.gate, sections.up + sections.down);
    FieldAt(whole, HEADER_BYTES + size, sections.up, sections.down);
    assert sections.down + [] == sections.down;
    FieldAt(whole, HEADER_BYTES + 2 * size, sections.down, []);
  }

  /** Every field of a record, at its offset. */
  lemma {:induction false} FieldsOfEncoded(config: MoeLayerConfig, scalarType: PackedScalarType, sections: Sections)
    ensures
      var whole, size := Encoded(config, scalarType, sections), |sections.gate|;
      && Holds(whole, 0, MAGIC) && Holds(whole, 8, LittleEndian(VERSION, 2))
      && Holds(whole, 10, LittleEndian(scalarType.Code(), 2)) && Holds(whole, 12, LittleEndian(HEADER_BYTES, 4))
      && Holds(whole, 16, LittleEndian(config.hiddenSize, 4)) &&
         Holds(whole, 20, LittleEndian(config.intermediateSize, 4))
      && Holds(whole, 24, LittleEndian(size, 8)) && Holds(whole, 32, LittleEndian(size, 8))
      && Holds(whole, 40, LittleEndian(size, 8)) && Holds(whole, 48, LittleEndian(size * 3, 8))
      && Holds(whole, 56, LittleEndian(0, 8)) && |whole| >= HEADER_BYTES && whole[HEADER_BYTES..] == Payload(sections)
  {
    hide LittleEndian, ReadExact;
    var whole, size := Encoded(config, scalarType, sections), |sections.gate|;
    var t11 := Payload(sections);
    var t10 := LittleEndian(0, 8) + t11;
    var t9 := LittleEndian(size * 3, 8) + t10;
    var t8 := LittleEndian(size, 8) + t9;
    var t7 := LittleEndian(size, 8) + t8;
    var t6 := LittleEndian(size, 8) + t7;
    var t5 := LittleEndian(config.intermediateSize, 4) + t6;
    var t4 := LittleEndian(config.hiddenSize, 4) + t5;
    var t3 := LittleEndian(HEADER_BYTES, 4) + t4;
    var t2 := LittleEndian(scalarType.Code(), 2) + t3;
    var t1 := LittleEndian(VERSION, 2) + t2;
    assert whole[0..] == MAGIC + t1;
    FieldAt(whole, 0, MAGIC, t1);
    FieldAt(whole, 8, LittleEndian(VERSION, 2), t2);
    FieldAt(whole, 10, LittleEndian(scalarType.Code(), 2), t3);
    FieldAt(whole, 12, LittleEndian(HEADER_BYTES, 4), t4);
    FieldAt(whole, 16, LittleEndian(config.hiddenSize, 4), t5);
    FieldAt(whole, 20, LittleEndian(config.intermediateSize, 4), t6);
    FieldAt(whole, 24, LittleEndian(size, 8), t7);
    FieldAt(whole, 32, LittleEndian(size, 8), t8);
    FieldAt(whole, 40, LittleEndian(size, 8), t9);
    FieldAt(whole, 48, LittleEndian(size * 3, 8), t10);
    FieldAt(whole, 56, LittleEndian(0, 8), t11);
  }

  /** `n` lies at `offset` in `width` bytes, the lowest first. */
  predicate NumberAt(bytes: seq<Byte>, offset: nat, width: nat, n: nat) {
    offset + width <= |bytes| && forall i: nat | i < width :: bytes[offset + i] == n / Pow256(i) % 256
  }

  lemma {:induction false} HeldIsNumber(whole: seq<Byte>, offset: nat, n: nat, width: nat)
    requires Holds(whole, offset, LittleEndian(n, width))
    ensures NumberAt(whole, offset, width, n)
  {
    forall i: nat | i < width
      ensures whole[offset + i] == n / Pow256(i) % 256
    {
      LittleEndianAt(n, width, i);
      assert whole[offset..offset + width][i] == whole[offset + i];
      hide Pow256, LittleEndian;
    }
  }

  /**
   The layout of a record, byte by byte: the magic, the version, the scalar code, the header's own length, both
   dimensions, the lengths of the sections and of the payload, eight reserved bytes, and the sections in order.
   */
  lemma {:induction false} RecordLayout(config: MoeLayerConfig, scalarType: PackedScalarType, sections: Sections)
    ensures
      var whole, size := Encoded(config, scalarType, sections), |sections.gate|;
      && |whole| >= 64 && (forall i | 0 <= i < 8 :: whole[i] == "A3SMOEPK"[i] as int)
      && NumberAt(whole, 8, 2, 1) && NumberAt(whole, 10, 2, if scalarType.F32? then 1 else 2)
      && NumberAt(whole, 12, 4, 64) && NumberAt(whole, 16, 4, config.hiddenSize)
      && NumberAt(whole, 20, 4, config.intermediateSize) && NumberAt(whole, 24, 8, size)
      && NumberAt(whole, 32, 8, size) && NumberAt(whole, 40, 8, size) && NumberAt(whole, 48, 8, 3 * size)
      && NumberAt(whole, 56, 8, 0) && whole[64..] == sections.gate + sections.up + sections.down
  {
    hide Pow256, LittleEndian, Encoded, NumberAt;
    FieldsOfEncoded(config, scalarType, sections);
    var whole, size := Encoded(config, scalarType, sections), |sections.gate|;
    assert forall i | 0 <= i < 8 :: whole[i] == whole[0..8][i] == MAGIC[i];
    HeldIsNumber(whole, 8, VERSION, 2);
    HeldIsNumber(whole, 10, scalarType.Code(), 2);
    HeldIsNumber(whole, 12, HEADER_BYTES, 4);
    HeldIsNumber(whole, 16, config.hiddenSize, 4);
    HeldIsNumber(whole, 20, config.intermediateSize, 4);
    HeldIsNumber(whole, 24, size, 8);
    HeldIsNumber(whole, 32, size, 8);
    HeldIsNumber(whole, 40, size, 8);
    HeldIsNumber(whole, 48, size * 3, 8);
    HeldIsNumber(whole, 56, 0, 8);
  }

  lemma {:induction false} HeaderOfEncoded(platform: Platform, config: MoeLayerConfig, scalarType: PackedScalarType,
                                           sections: Sections)
    requires platform.Valid() && Encodable(platform, config, scalarType, sections)
    ensures
      var whole, size := Encoded(config, scalarType, sections), |sections.gate|;
      && |whole| >= HEADER_BYTES && whole[HEADER_BYTES..] == Payload(sections)
      && |whole| == HEADER_BYTES + 3 * size
      && ParseHeader(platform, whole, config) == Ok((scalarType, size))
  {
    hide Pow256, LittleEndian, FromLittleEndian, AllFinite, Values, Encoded;
    Powers();
    FieldsOfEncoded(config, scalarType, sections);
    var whole, size := Encoded(config, scalarType, sections), |sections.gate|;
    NatHeld(whole, 8, VERSION, 2);
    NatHeld(whole, 10, scalarType.Code(), 2);
    NatHeld(whole, 12, HEADER_BYTES, 4);
    NatHeld(whole, 16, config.hiddenSize, 4);
    NatHeld(whole, 20, config.intermediateSize, 4);
    NatHeld(whole, 24, size, 8);
    NatHeld(whole, 32, size, 8);
    NatHeld(whole, 40, size, 8);
    NatHeld(whole, 48, size * 3, 8);
    NatHeld(whole, 56, 0, 8);
  }

  /** Reading back a field that was accepted. */
  lemma {:induction false} AcceptedNat(whole: seq<Byte>, offset: nat, n: nat, width: nat)
    requires ReadNat(whole, offset, width) == Ok(n)
    ensures offset + width <= |whole| && whole[offset..] == LittleEndian(n, width) + whole[offset + width..]
  {
    WritesBack(whole[offset..offset + width]);
    assert whole[offset..] == whole[offset..offset + width] + whole[offset + width..];
  }

  /** What the header of an accepted record says. */
  lemma {:induction false} HeaderOfParse(platform: Platform, encoded: seq<Byte>, config: MoeLayerConfig)
    requires ParseHeader(platform, encoded, config).Ok?
    ensures
      var (scalarType, size) := ParseHeader(platform, encoded, config).value;
      && ReadExact(encoded, 0, 8) == Ok(MAGIC)
      && ReadNat(encoded, 8, 2) == Ok(VERSION) && ReadNat(encoded, 10, 2) == Ok(scalarType.Code())
      && ReadNat(encoded, 12, 4) == Ok(HEADER_BYTES)
      && ReadNat(encoded, 16, 4) == Ok(config.hiddenSize) && ReadNat(encoded, 20, 4) == Ok(config.intermediateSize)
      && ReadNat(encoded, 24, 8) == ReadNat(encoded, 32, 8) == ReadNat(encoded, 40, 8) == Ok(size)
      && ReadNat(encoded, 48, 8) == Ok(size * 3) && ReadNat(encoded, 56, 8) == Ok(0)
      && SectionBytes(platform, config, scalarType) == Some(size)
      && size * 3 < platform.limit && HEADER_BYTES + size * 3 < platform.limit && |encoded| == HEADER_BYTES + size * 3
  {
    hide FromLittleEndian, ReadExact, SectionBytes;
  }

  /** Every accepted record is the encoding of its own sections. */
  lemma {:induction false} EncodedOfParse(platform: Platform, encoded: seq<Byte>, config: MoeLayerConfig)
    requires platform.Valid() && Parse(platform, encoded, config).Ok?
    ensures
      var record := Parse(platform, encoded, config).value;
      && Encodable(platform, config, record.scalarType, record.GetSections())
      && Encoded(config, record.scalarType, record.GetSections()) == encoded
  {
    hide Pow256, FromLittleEndian, SectionFits, ParseHeader, SectionBytes, Header;
    var record := Parse(platform, encoded, config).value;
    HeaderOfParse(platform, encoded, config);
    HeaderFits(encoded, config);
    LengthsBack(encoded, record.size);
    HeaderBytesBack(encoded, config, record.scalarType, record.size);
    PayloadBack(record);
    hide ReadNat, ReadExact, Payload;
  }

  lemma {:induction false} PayloadBack(record: Record)
    requires record.Valid()
    ensures record.encoded[HEADER_BYTES..] == Payload(record.GetSections()) &&
            |record.GetSections().gate| == record.size
  {
    var a, b, c := HEADER_BYTES + record.size, HEADER_BYTES + 2 * record.size, HEADER_BYTES + 3 * record.size;
    assert record.encoded[HEADER_BYTES..] == record.encoded[HEADER_BYTES..a]
           + (record.encoded[a..b] + record.encoded[b..c]);
  }

  lemma {:induction false} HeaderFits(encoded: seq<Byte>, config: MoeLayerConfig)
    requires ReadNat(encoded, 16, 4) == Ok(config.hiddenSize) && ReadNat(encoded, 20, 4) == Ok(config.intermediateSize)
    ensures config.hiddenSize < WORD && config.intermediateSize < WORD
  {
    Powers();
  }

  lemma {:induction false} LengthsBack(encoded: seq<Byte>, size: nat)
    requires ReadNat(encoded, 24, 8) == ReadNat(encoded, 32, 8) == ReadNat(encoded, 40, 8) == Ok(size)
    requires ReadNat(encoded, 48, 8) == Ok(size * 3) && ReadNat(encoded, 56, 8) == Ok(0)
    ensures HEADER_BYTES <= |encoded| && encoded[24..] == Lengths(size, encoded[HEADER_BYTES..])
  {
    hide ReadNat, LittleEndian;
    AcceptedNat(encoded, 24, size, 8);
    AcceptedNat(encoded, 32, size, 8);
    AcceptedNat(encoded, 40, size, 8);
    AcceptedNat(encoded, 48, size * 3, 8);
    AcceptedNat(encoded, 56, 0, 8);
  }

  lemma {:induction false} HeaderBytesBack(encoded: seq<Byte>, config: MoeLayerConfig, scalarType: PackedScalarType,
                                           size: nat)
    requires ReadExact(encoded, 0, 8) == Ok(MAGIC)
    requires ReadNat(encoded, 8, 2) == Ok(VERSION) && ReadNat(encoded, 10, 2) == Ok(scalarType.Code())
    requires ReadNat(encoded, 12, 4) == Ok(HEADER_BYTES)
    requires ReadNat(encoded, 16, 4) == Ok(config.hiddenSize) && ReadNat(encoded, 20, 4) == Ok(config.intermediateSize)
    requires HEADER_BYTES <= |encoded| && encoded[24..] == Lengths(size, encoded[HEADER_BYTES..])
    ensures encoded == Header(config, scalarType, size, encoded[HEADER_BYTES..])
  {
    hide ReadNat, LittleEndian, Lengths;
    AcceptedNat(encoded, 8, VERSION, 2);
    AcceptedNat(encoded, 10, scalarType.Code(), 2);
    AcceptedNat(encoded, 12, HEADER_BYTES, 4);
    AcceptedNat(encoded, 16, config.hiddenSize, 4);
    AcceptedNat(encoded, 20, config.intermediateSize, 4);
    assert encoded == encoded[0..8] + encoded[8..];
  }

  predicate Encodes(platform: Platform, config: MoeLayerConfig, encoded: seq<Byte>, scalarType: PackedScalarType,
                    sections: Sections)
  {
    Encodable(platform, config, scalarType, sections) && encoded == Encoded(config, scalarType, sections)
  }

  /**
   The parser accepts exactly the encoder's outputs, and each of them for one scalar type and one triple of sections
   only.
   */
  lemma {:induction false} RecordsAreBijective(platform: Platform, encoded: seq<Byte>, config: MoeLayerConfig)
    requires platform.Valid()
    ensures Parse(platform, encoded, config).Ok? <==>
            exists scalarType, sections :: Encodes(platform, config, encoded, scalarType, sections)
    ensures forall scalarType, sections | Encodes(platform, config, encoded, scalarType, sections) ::
              Parse(platform, encoded, config).value.scalarType == scalarType &&
                Parse(platform, encoded, config).value.GetSections() == sections
  {
    hide Parse, Encodable, Encoded;
    if Parse(platform, encoded, config).Ok? {
      EncodedOfParse(platform, encoded, config);
      var record := Parse(platform, encoded, config).value;
      assert Encodes(platform, config, encoded, record.scalarType, record.GetSections());
    }
    forall scalarType, sections | Encodes(platform, config, encoded, scalarType, sections)
      ensures Parse(platform, encoded, config).Ok?
      ensures Parse(platform, encoded, config).value.scalarType == scalarType &&
              Parse(platform, encoded, config).value.GetSections() == sections
    {
      ParseOfEncoded(platform, config, scalarType, sections);
    }
  }

  // ----- values -----

  /** Encodes matrices of F32 values, given by their bits. */
  method EncodeF32(platform: Platform, config: MoeLayerConfig, gate: seq<nat>, up: seq<nat>, down: seq<nat>)
    returns (result: Result<seq<Byte>>)
    requires platform.Valid()
    requires forall values | values in {gate, up, down} :: forall i | 0 <= i < |values| :: values[i] < WORD
    ensures result.Ok? ==>
            Parse(platform, result.value, config).Ok? &&
              Decoded(Parse(platform, result.value, config).value) == (gate, up, down)
    ensures result.Ok? <==>
            Encodable(platform, config, F32, Sections(Stored(gate, F32), Stored(up, F32), Stored(down, F32)))
  {
    hide Encoded, Parse, SectionBytes;
    assert gate in {gate, up, down} && up in {gate, up, down} && down in {gate, up, down};
    var sections := Sections(Stored(gate, F32), Stored(up, F32), Stored(down, F32));
    ValuesSurvive(gate, F32);
    ValuesSurvive(up, F32);
    ValuesSurvive(down, F32);
    if exists i | 0 <= i < |gate| :: !Finite(gate[i]) {
      return Err(InvalidTensor);
    }
    if exists i | 0 <= i < |up| :: !Finite(up[i]) {
      return Err(InvalidTensor);
    }
    if exists i | 0 <= i < |down| :: !Finite(down[i]) {
      return Err(InvalidTensor);
    }
    result := EncodeRaw(platform, config, F32, sections);
    if result.Ok? {
      ParseOfEncoded(platform, config, F32, sections);
    }
  }

  /** The values of a record's sections. */
  ghost function Decoded(record: Record): (seq<nat>, seq<nat>, seq<nat>)
    requires record.Valid()
  {
    var width, sections := record.scalarType.ByteWidth(), record.GetSections();
    if |sections.gate| % width == 0 && |sections.up| % width == 0 && |sections.down| % width == 0
    then (Values(sections.gate, record.scalarType), Values(sections.up, record.scalarType),
          Values(sections.down, record.scalarType))
    else ([], [], [])
  }

  /** Decoding a parsed record always succeeds, with finite values. */
  method DecodeF32(platform: Platform, record: Record) returns (result: Result<(seq<nat>, seq<nat>, seq<nat>)>)
    requires record.Valid() && Parse(platform, record.encoded, record.config) == Ok(record)
    ensures result == Ok(Decoded(record))
    ensures AllFinite(result.value.0) && AllFinite(result.value.1) && AllFinite(result.value.2)
  {
    hide ParseHeader, AllFinite, Values;
    var sections := record.GetSections();
    var gate := DecodeScalarBytes(sections.gate, record.scalarType);
    var up := DecodeScalarBytes(sections.up, record.scalarType);
    var down := DecodeScalarBytes(sections.down, record.scalarType);
    result := Ok((gate.value, up.value, down.value));
  }
}

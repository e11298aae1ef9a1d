/**
 Converting a checkpoint into packed expert records: one record per sparse layer and expert, the same
 matrices whether they are stored fused or split, within a buffer bound, in files whose names sort.
 */
module Conversion {
  import opened Wrappers
  import opened Router
  import opened PackedRecord

  // ----- the source checkpoint -----

  datatype TensorName =
    | FusedGateUp(layer: nat)
    | FusedDown(layer: nat)
    | SplitGate(layer: nat, expert: nat)
    | SplitUp(layer: nat, expert: nat)
    | SplitDown(layer: nat, expert: nat)

  /** A stored tensor: its scalar type when the packed format has one for it, its shape, and its row-major bytes. */
  datatype Tensor = Tensor(scalarType: Option<PackedScalarType>, shape: seq<nat>, data: seq<Byte>)

  function Elements(shape: seq<nat>): nat {
    if shape == [] then 1 else shape[0] * Elements(shape[1..])
  }

  /** What the weight store checks when it is opened: every tensor has the bytes of its shape. */
  predicate StoreValid(source: map<TensorName, Tensor>) {
    forall name | name in source ::
      && |source[name].data| < U64
      && (source[name].scalarType.Some? ==>
          |source[name].data| == Elements(source[name].shape) * source[name].scalarType.value.ByteWidth())
  }

  /** The bytes of element `index` of a row-major tensor. */
  function Element(data: seq<Byte>, index: nat, width: nat): seq<Byte>
    requires (index + 1) * width <= |data|
  {
    AtProduct(index, width);
    data[index * width..index * width + width]
  }

  lemma {:induction false} AtProduct(index: nat, width: nat)
    ensures (index + 1) * width == index * width + width && index * width >= 0
  {
  }

  // ----- arithmetic of layouts -----

  lemma {:induction false} BlockFits(index: nat, count: nat, size: nat)
    requires index < count
    ensures index * size + size <= count * size && index * size >= 0
  {
    assert (count - index - 1) * size >= 0;
    assert count * size == index * size + size + (count - index - 1) * size;
  }

  lemma {:induction false} ProductGrows(a: nat, b: nat, size: nat)
    requires a <= b
    ensures 0 <= a * size <= b * size
  {
    assert b * size == a * size + (b - a) * size;
  }

  // ----- one record -----

  datatype Options = Options(expertsPerFile: nat, maxBufferBytes: nat) {
    predicate Valid(numExperts: nat) {
      0 < expertsPerFile <= numExperts && 0 < maxBufferBytes < U64
    }
  }

  datatype Packed = Packed(layer: nat, expert: nat, record: seq<Byte>)

  function SourceBytes(sections: Sections): nat {
    |sections.gate| + |sections.up| + |sections.down|
  }

  function RecordBytes(sections: Sections): nat {
    SourceBytes(sections) + HEADER_BYTES
  }

  lemma {:induction false} EncodedLength(config: MoeLayerConfig, scalarType: PackedScalarType, sections: Sections)
    ensures |Encoded(config, scalarType, sections)| == RecordBytes(sections)
  {
  }

  function Max(a: nat, b: nat): nat {
    if a < b then b else a
  }

  /** Accounts for one record's buffers, checks them against the bound, and encodes the record. */
  method PackExpert(platform: Platform, config: MoeLayerConfig, scalarType: PackedScalarType, sections: Sections,
                    layer: nat, expert: nat, retained: nat, maxBufferBytes: nat, peak: nat)
    returns (result: Result<Packed>, newPeak: nat)
    requires platform.Valid() && maxBufferBytes < U64
    ensures result.Ok? <==>
      && retained + SourceBytes(sections) + RecordBytes(sections) <= maxBufferBytes
      && Encodable(platform, config, scalarType, sections) && layer < WORD && expert < WORD
    ensures result.Ok? ==> result.value == Packed(layer, expert, Encoded(config, scalarType, sections))
    ensures newPeak == peak || newPeak == Max(peak,
                                              retained + SourceBytes(sections)
                                                + RecordBytes(sections)) <= Max(peak, maxBufferBytes)
    ensures result.Ok? ==> newPeak == Max(peak, retained + SourceBytes(sections) + RecordBytes(sections))
  {
    hide Encodable, Encoded;
    newPeak := peak;
    var sourceBytes := |sections.gate| + |sections.up| + |sections.down|;
    if sourceBytes >= U64 || sourceBytes + HEADER_BYTES >= U64
      || retained + sourceBytes + (sourceBytes + HEADER_BYTES) >= U64 {
      return Err(InvalidTensor), newPeak;
    }
    var buffered := retained + sourceBytes + (sourceBytes + HEADER_BYTES);
    if buffered > maxBufferBytes {
      return Err(InvalidConfig), newPeak;
    }
    newPeak := if newPeak < buffered then buffered else newPeak;
    var encoded := EncodeRaw(platform, config, scalarType, sections);
    if encoded.Err? {
      return Err(InvalidTensor), newPeak;
    }
    if layer >= WORD || expert >= WORD {
      return Err(InvalidConfig), newPeak;
    }
    result := Ok(Packed(layer, expert, encoded.value));
  }

  // ----- shards -----

  /** A file of records of one layer, named by its first and last expert. */
  datatype Shard = Shard(layer: nat, first: nat, last: nat, records: seq<Packed>)

  /** Where the matrices of an expert come from. */
  type Matrices = (nat, nat) -> Sections

  function ExpertRecord(config: MoeLayerConfig, scalarType: PackedScalarType, matrices: Matrices, layer: nat,
                        expert: nat): Packed
  {
    Packed(layer, expert, Encoded(config, scalarType, matrices(layer, expert)))
  }

  /** The records of the experts `first..end` of a layer, in order. */
  function RecordsOf(config: MoeLayerConfig, scalarType: PackedScalarType, matrices: Matrices, layer: nat, first: nat,
                     end: nat): (records: seq<Packed>)
    requires first <= end
    ensures |records| == end - first
  {
    seq(end - first, i requires 0 <= i < end - first => ExpertRecord(config, scalarType, matrices, layer, first + i))
  }

  /** The records of every layer and every expert, each exactly once. */
  function AllRecords(config: MoeLayerConfig, scalarType: PackedScalarType, matrices: Matrices,
                      layers: seq<nat>): seq<Packed>
  {
    if layers == [] then []
    else
      var before := AllRecords(config, scalarType, matrices, layers[..|layers| - 1]);
      before + RecordsOf(config, scalarType, matrices, layers[|layers| - 1], 0, config.numExperts)
  }

  function ShardRecords(shards: seq<Shard>): seq<Packed> {
    if shards == [] then [] else ShardRecords(shards[..|shards| - 1]) + shards[|shards| - 1].records
  }

  lemma {:induction false} ShardRecordsAppend(left: seq<Shard>, right: seq<Shard>)
    ensures ShardRecords(left + right) == ShardRecords(left) + ShardRecords(right)
    decreases |right|
  {
    if right == [] {
      assert left + right == left;
    } else {
      var last := |right| - 1;
      assert (left + right)[..|left + right| - 1] == left + right[..last];
      ShardRecordsAppend(left, right[..last]);
    }
  }

  lemma {:induction false} RecordsOfSplits(config: MoeLayerConfig, scalarType: PackedScalarType, matrices: Matrices,
                                           layer: nat, middle: nat, end: nat)
    requires middle <= end
    ensures RecordsOf(config, scalarType, matrices, layer, 0, end)
         == RecordsOf(config, scalarType, matrices, layer, 0, middle)
           + RecordsOf(config, scalarType, matrices, layer, middle, end)
  {
    hide ExpertRecord;
  }

  /** Every expert can be encoded, from sections of one size. */
  predicate ExpertsEncodable(platform: Platform, config: MoeLayerConfig, scalarType: PackedScalarType,
                             matrices: Matrices, size: nat, layer: nat, first: nat, end: nat)
  {
    forall expert | first <= expert < end ::
      ExpertEncodable(platform, config, scalarType, matrices(layer, expert), size)
  }

  predicate ExpertEncodable(platform: Platform, config: MoeLayerConfig, scalarType: PackedScalarType,
                            sections: Sections, size: nat)
  {
    Encodable(platform, config, scalarType, sections) && SourceBytes(sections) == 3 * size
  }

  /**
   The largest buffers of a shard of `count` experts: the records kept so far, and the last expert's source and record.
   */
  function ShardBuffer(count: nat, size: nat): nat {
    count * (3 * size + HEADER_BYTES) + 3 * size
  }

  lemma {:induction false} ShardBufferGrows(count: nat, more: nat, size: nat)
    requires count <= more
    ensures ShardBuffer(count, size) <= ShardBuffer(more, size)
    ensures ShardBuffer(count + 1, size) == ShardBuffer(count, size) + 3 * size + HEADER_BYTES
  {
    ProductGrows(count, more, 3 * size + HEADER_BYTES);
  }

  // ----- the fused layout -----

  /** The three matrices of an expert inside the fused tensors of its layer. */
  function FusedSections(gateUp: seq<Byte>, down: seq<Byte>, size: nat, expert: nat): Sections {
    var offset := expert * (2 * size);
    if offset + 2 * size <= |gateUp| && expert * size + size <= |down| then
      Sections(gateUp[offset..offset + size], gateUp[offset + size..offset + 2 * size],
               down[expert * size..expert * size + size])
    else Sections([], [], [])
  }

  function FusedMatrices(source: map<TensorName, Tensor>, size: nat): Matrices {
    (layer: nat, expert: nat) =>
      if FusedGateUp(layer) in source && FusedDown(layer) in source
      then FusedSections(source[FusedGateUp(layer)].data, source[FusedDown(layer)].data, size, expert)
      else Sections([], [], [])
  }

  /** Reads one expert's gate and up matrices as one range, and its down matrix as another. */
  method ReadFusedExpert(gateUp: seq<Byte>, down: seq<Byte>, numExperts: nat, size: nat, expert: nat)
    returns (sections: Sections)
    requires expert < numExperts && |gateUp| == numExperts * (2 * size) && |down| == numExperts * size
    ensures sections == FusedSections(gateUp, down, size, expert) && SourceBytes(sections) == 3 * size
  {
    BlockFits(expert, numExperts, 2 * size);
    BlockFits(expert, numExperts, size);
    var offset, downOffset := expert * (2 * size), expert * size;
    var bytes := gateUp[offset..offset + 2 * size];
    var gate, up := bytes[..size], bytes[size..];
    sections := Sections(gate, up, down[downOffset..downOffset + size]);
  }

  method FusedShard(platform: Platform, config: MoeLayerConfig, scalarType: PackedScalarType, size: nat,
                    gateUp: seq<Byte>, down: seq<Byte>, layer: nat, first: nat, end: nat, options: Options, peak: nat,
                    ghost matrices: Matrices)
    returns (result: Result<seq<Packed>>, newPeak: nat)
    requires platform.Valid() && config.Valid() && options.maxBufferBytes < U64 && first < end <= config.numExperts
    requires |gateUp| == config.numExperts * (2 * size) && |down| == config.numExperts * size
    requires forall expert | 0 <= expert < config.numExperts ::
             matrices(layer, expert) == FusedSections(gateUp, down, size, expert)
    ensures result.Ok? <==>
      && ShardBuffer(end - first, size) <= options.maxBufferBytes && layer < WORD
      && ExpertsEncodable(platform, config, scalarType, matrices, size, layer, first, end)
    ensures result.Ok? ==> result.value == RecordsOf(config, scalarType, matrices, layer, first, end)
    ensures peak <= newPeak <= Max(peak, options.maxBufferBytes)
    ensures result.Ok? ==> newPeak == Max(peak, ShardBuffer(end - first, size))
  {
    hide Encodable, Encoded, ExpertsEncodable, ShardBuffer, RecordsOf, FusedSections;
    newPeak := peak;
    var records: seq<Packed>, retained: nat := [], 0;
    NothingPacked(platform, config, scalarType, matrices, size, layer, first);
    for expert := first to end
      invariant records == RecordsOf(config, scalarType, matrices, layer, first, expert)
      invariant retained + 3 * size == ShardBuffer(expert - first, size)
      invariant ExpertsEncodable(platform, config, scalarType, matrices, size, layer, first, expert)
      invariant expert > first ==> layer < WORD && ShardBuffer(expert - first, size) <= options.maxBufferBytes
      invariant newPeak == if expert == first then peak else Max(peak, ShardBuffer(expert - first, size))
    {
      ShardBufferGrows(expert + 1 - first, end - first, size);
      ShardBufferGrows(expert - first, end - first, size);
      var sections := ReadFusedExpert(gateUp, down, config.numExperts, size, expert);
      var packed;
      packed, newPeak := PackExpert(platform, config, scalarType, sections, layer, expert, retained,
                                    options.maxBufferBytes, newPeak);
      NextExpert(platform, config, scalarType, matrices, size, layer, first, expert, end);
      if packed.Err? {
        return Err(packed.error), newPeak;
      }
      EncodedLength(config, scalarType, sections);
      retained := retained + |packed.value.record|;
      RecordsOfNext(config, scalarType, matrices, layer, first, expert);
      records := records + [packed.value];
    }
    result := Ok(records);
  }

  lemma {:induction false} NothingPacked(platform: Platform, config: MoeLayerConfig, scalarType: PackedScalarType,
                                         matrices: Matrices, size: nat, layer: nat, first: nat)
    ensures RecordsOf(config, scalarType, matrices, layer, first, first) == []
    ensures ExpertsEncodable(platform, config, scalarType, matrices, size, layer, first, first)
    ensures ShardBuffer(0, size) == 3 * size
  {
  }

  lemma {:induction false} RecordsOfNext(config: MoeLayerConfig, scalarType: PackedScalarType, matrices: Matrices,
                                         layer: nat, first: nat, end: nat)
    requires first <= end
    ensures RecordsOf(config, scalarType, matrices, layer, first, end + 1)
         == RecordsOf(config, scalarType, matrices, layer, first, end)
           + [ExpertRecord(config, scalarType, matrices, layer, end)]
  {
    hide ExpertRecord;
  }

  lemma {:induction false} NextExpert(platform: Platform, config: MoeLayerConfig, scalarType: PackedScalarType,
                                      matrices: Matrices, size: nat, layer: nat, first: nat, expert: nat, end: nat)
    requires first <= expert < end &&
             ExpertsEncodable(platform, config, scalarType, matrices, size, layer, first, expert)
    ensures ExpertsEncodable(platform, config, scalarType, matrices, size, layer, first, expert + 1)
            <==> ExpertEncodable(platform, config, scalarType, matrices(layer, expert), size)
    ensures ExpertsEncodable(platform, config, scalarType, matrices, size, layer, first, end)
            ==> ExpertEncodable(platform, config, scalarType, matrices(layer, expert), size)
  {
    hide ExpertEncodable;
  }

  // ----- the shards of a layer -----

  function CeilDiv(count: nat, size: nat): nat
    requires size > 0
  {
    (count + size - 1) / size
  }

  /** The shards of one layer tile its experts in steps of the file size; the last one may be shorter. */
  predicate Tiles(shards: seq<Shard>, layer: nat, numExperts: nat, expertsPerFile: nat) {
    forall k | 0 <= k < |shards| ::
      && shards[k].layer == layer && shards[k].first == k * expertsPerFile < numExperts
      && shards[k].last == Min(k * expertsPerFile + expertsPerFile, numExperts) - 1
  }

  function Min(a: nat, b: nat): nat {
    if a < b then a else b
  }

  lemma {:induction false} TileCount(count: nat, size: nat, tiles: nat)
    requires size > 0 && tiles > 0 && (tiles - 1) * size < count <= tiles * size
    ensures tiles == CeilDiv(count, size)
  {
    var whole := count + size - 1;
    assert tiles * size == (tiles - 1) * size + size;
    assert tiles * size <= whole < tiles * size + size;
    QuotientIs(whole, size, tiles);
  }

  /** A layer converts exactly when its experts can be encoded and a full shard fits the buffer. */
  predicate LayerConverts(platform: Platform, config: MoeLayerConfig, scalarType: PackedScalarType, matrices: Matrices,
                          size: nat, layer: nat, options: Options)
  {
    && ShardBuffer(options.expertsPerFile, size) <= options.maxBufferBytes && layer < WORD
    && ExpertsEncodable(platform, config, scalarType, matrices, size, layer, 0, config.numExperts)
  }

  /** The shards of a layer hold all its records, in order, in as many files as the validator expects. */
  predicate LayerShards(config: MoeLayerConfig, scalarType: PackedScalarType, matrices: Matrices, layer: nat,
                        options: Options, shards: seq<Shard>)
    requires options.Valid(config.numExperts)
  {
    && Tiles(shards, layer, config.numExperts, options.expertsPerFile)
    && |shards| == CeilDiv(config.numExperts, options.expertsPerFile)
    && ShardRecords(shards) == RecordsOf(config, scalarType, matrices, layer, 0, config.numExperts)
  }

  method FusedLayer(platform: Platform, config: MoeLayerConfig, scalarType: PackedScalarType, size: nat,
                    gateUp: seq<Byte>, down: seq<Byte>, layer: nat, options: Options, peak: nat,
                    ghost matrices: Matrices)
    returns (result: Result<seq<Shard>>, newPeak: nat)
    requires platform.Valid() && config.Valid() && options.Valid(config.numExperts)
    requires |gateUp| == config.numExperts * (2 * size) && |down| == config.numExperts * size
    requires forall expert | 0 <= expert < config.numExperts ::
             matrices(layer, expert) == FusedSections(gateUp, down, size, expert)
    ensures result.Ok? <==> LayerConverts(platform, config, scalarType, matrices, size, layer, options)
    ensures result.Ok? ==> LayerShards(config, scalarType, matrices, layer, options, result.value)
    ensures peak <= newPeak <= Max(peak, options.maxBufferBytes)
  {
    hide Encodable, ExpertsEncodable, ShardBuffer, RecordsOf, FusedSections;
    newPeak := peak;
    var shards: seq<Shard>, first := [], 0;
    LayerStarts(platform, config, scalarType, matrices, size, layer, options);
    while first < config.numExperts
      invariant LayerProgress(platform, config, scalarType, matrices, size, layer, options, shards, first)
      invariant peak <= newPeak <= Max(peak, options.maxBufferBytes)
      decreases config.numExperts - first
    {
      var end := Min(first + options.expertsPerFile, config.numExperts);
      var records;
      records, newPeak := FusedShard(platform, config, scalarType, size, gateUp, down, layer, first, end, options,
                                     newPeak, matrices);
      LayerStep(platform, config, scalarType, matrices, size, layer, options, shards, first, end, records);
      if records.Err? {
        return Err(records.error), newPeak;
      }
      shards := shards + [Shard(layer, first, end - 1, records.value)];
      first := first + options.expertsPerFile;
    }
    LayerEnds(platform, config, scalarType, matrices, size, layer, options, shards, first);
    result := Ok(shards);
  }

  // ----- progress through a layer, for either layout -----

  /** The experts before `first` are packed. */
  predicate LayerProgress(platform: Platform, config: MoeLayerConfig, scalarType: PackedScalarType, matrices: Matrices,
                          size: nat, layer: nat, options: Options, shards: seq<Shard>, first: nat)
    requires options.Valid(config.numExperts)
  {
    var packed := Min(first, config.numExperts);
    && (first > 0 ==> first >= options.expertsPerFile)
    && TiledUpTo(shards, layer, config.numExperts, options.expertsPerFile, first)
    && ShardRecords(shards) == RecordsOf(config, scalarType, matrices, layer, 0, packed)
    && ExpertsEncodable(platform, config, scalarType, matrices, size, layer, 0, packed)
    && (first > 0 ==> ShardBuffer(options.expertsPerFile, size) <= options.maxBufferBytes && layer < WORD)
  }

  lemma {:induction false} LayerStarts(platform: Platform, config: MoeLayerConfig, scalarType: PackedScalarType,
                                       matrices: Matrices, size: nat, layer: nat, options: Options)
    requires options.Valid(config.numExperts)
    ensures LayerProgress(platform, config, scalarType, matrices, size, layer, options, [], 0)
  {
  }

  /** What one shard's outcome means for its layer. */
  lemma {:induction false} LayerStep(platform: Platform, config: MoeLayerConfig, scalarType: PackedScalarType,
                                     matrices: Matrices, size: nat, layer: nat, options: Options, shards: seq<Shard>,
                                     first: nat, end: nat, records: Result<seq<Packed>>)
    requires options.Valid(config.numExperts) &&
             LayerProgress(platform, config, scalarType, matrices, size, layer, options, shards, first)
    requires first < config.numExperts && end == Min(first + options.expertsPerFile, config.numExperts)
    requires records.Ok? <==> (
      && ShardBuffer(end - first, size) <= options.maxBufferBytes && layer < WORD
      && ExpertsEncodable(platform, config, scalarType, matrices, size, layer, first, end))
    requires records.Ok? ==> records.value == RecordsOf(config, scalarType, matrices, layer, first, end)
    ensures records.Err? ==> !LayerConverts(platform, config, scalarType, matrices, size, layer, options)
    ensures records.Ok? ==> LayerProgress(platform, config, scalarType, matrices, size, layer, options,
                                          shards + [Shard(layer, first, end - 1, records.value)],
                                          first + options.expertsPerFile)
  {
    hide ExpertEncodable, ExpertRecord, RecordsOf, TiledUpTo;
    ShardBufferGrows(end - first, options.expertsPerFile, size);
    hide ShardBuffer;
    if records.Ok? {
      RecordsOfSplits(config, scalarType, matrices, layer, first, end);
      var shard := Shard(layer, first, end - 1, records.value);
      assert (shards + [shard])[..|shards|] == shards;
      TiledNext(shards, shard, config.numExperts, options.expertsPerFile);
      assert ShardRecords(shards + [shard]) == RecordsOf(config, scalarType, matrices, layer, 0, end);
    }
  }

  /** The shards so far tile the experts before `first`. */
  predicate TiledUpTo(shards: seq<Shard>, layer: nat, numExperts: nat, expertsPerFile: nat, first: nat) {
    && Tiles(shards, layer, numExperts, expertsPerFile)
    && first == |shards| * expertsPerFile && (first > 0 ==> first - expertsPerFile < numExperts)
  }

  lemma {:induction false} TiledNext(shards: seq<Shard>, shard: Shard, numExperts: nat, expertsPerFile: nat)
    requires TiledUpTo(shards, shard.layer, numExperts, expertsPerFile, shard.first)
    requires shard.first < numExperts && shard.last == Min(shard.first + expertsPerFile, numExperts) - 1
    ensures TiledUpTo(shards + [shard], shard.layer, numExperts, expertsPerFile, shard.first + expertsPerFile)
  {
    assert (|shards| + 1) * expertsPerFile == |shards| * expertsPerFile + expertsPerFile;
  }

  lemma {:induction false} LayerEnds(platform: Platform, config: MoeLayerConfig, scalarType: PackedScalarType,
                                     matrices: Matrices, size: nat, layer: nat, options: Options, shards: seq<Shard>,
                                     first: nat)
    requires options.Valid(config.numExperts) && first >= config.numExperts
    requires LayerProgress(platform, config, scalarType, matrices, size, layer, options, shards, first)
    ensures LayerConverts(platform, config, scalarType, matrices, size, layer, options)
    ensures LayerShards(config, scalarType, matrices, layer, options, shards)
  {
    hide ExpertEncodable, ShardBuffer, ExpertRecord;
    assert (|shards| - 1) * options.expertsPerFile == first - options.expertsPerFile;
    TileCount(config.numExperts, options.expertsPerFile, |shards|);
  }

  // ----- all layers -----

  /** The files of a conversion, the scalar type of all its experts, and how many it packed. */
  datatype Converted = Converted(files: seq<Shard>, scalarType: PackedScalarType, packedExperts: nat)

  predicate Before(left: Shard, right: Shard) {
    left.layer < right.layer || (left.layer == right.layer && left.first < right.first)
  }

  predicate Ascending(files: seq<Shard>) {
    forall j | 0 <= j < |files| - 1 :: Before(files[j], files[j + 1])
  }

  predicate IncreasingLayers(layers: seq<nat>) {
    forall i, j | 0 <= i < j < |layers| :: layers[i] < layers[j]
  }

  /** What a conversion holds after some layers: every record once, the expected files, in ascending order. */
  predicate Covers(config: MoeLayerConfig, scalarType: PackedScalarType, matrices: Matrices, layers: seq<nat>,
                   options: Options, files: seq<Shard>)
    requires options.Valid(config.numExperts)
  {
    && ShardRecords(files) == AllRecords(config, scalarType, matrices, layers)
    && |files| == |layers| * CeilDiv(config.numExperts, options.expertsPerFile)
    && (forall j | 0 <= j < |files| :: files[j].layer in layers && files[j].first <= files[j].last < config.numExperts)
    && (IncreasingLayers(layers) ==> Ascending(files))
  }

  lemma {:induction false} CoversNext(config: MoeLayerConfig, scalarType: PackedScalarType, matrices: Matrices,
                                      layers: seq<nat>, options: Options, files: seq<Shard>, layer: nat,
                                      shards: seq<Shard>)
    requires options.Valid(config.numExperts) && Covers(config, scalarType, matrices, layers, options, files)
    requires LayerShards(config, scalarType, matrices, layer, options, shards)
    ensures Covers(config, scalarType, matrices, layers + [layer], options, files + shards)
  {
    hide RecordsOf;
    ShardRecordsAppend(files, shards);
    assert (layers + [layer])[..|layers|] == layers;
    CountNext(|layers|, CeilDiv(config.numExperts, options.expertsPerFile));
    hide ShardRecords, CeilDiv;
    TilesAreOrdered(shards, layer, config.numExperts, options.expertsPerFile);
    hide Tiles;
    assert forall j | 0 <= j < |files + shards| ::
           (files + shards)[j] == if j < |files| then files[j] else shards[j - |files|];
    if IncreasingLayers(layers + [layer]) {
      IncreasingInit(layers, layer);
      AscendingAppend(files, shards, layers, layer);
    }
    hide Ascending, IncreasingLayers;
  }

  lemma {:induction false} CountNext(count: nat, size: nat)
    ensures (count + 1) * size == count * size + size
  {
  }

  lemma {:induction false} IncreasingInit(layers: seq<nat>, layer: nat)
    requires IncreasingLayers(layers + [layer])
    ensures IncreasingLayers(layers) && forall other | other in layers :: other < layer
  {
    var next := layers + [layer];
    assert forall i | 0 <= i < |layers| :: next[i] == layers[i] && next[i] < next[|layers|];
  }

  lemma {:induction false} AscendingAppend(files: seq<Shard>, shards: seq<Shard>, layers: seq<nat>, layer: nat)
    requires Ascending(files) && Ascending(shards)
    requires forall j | 0 <= j < |files| :: files[j].layer in layers
    requires forall j | 0 <= j < |shards| :: shards[j].layer == layer
    requires forall other | other in layers :: other < layer
    ensures Ascending(files + shards)
  {
    var all := files + shards;
    forall j | 0 <= j < |all| - 1
      ensures Before(all[j], all[j + 1])
    {
      if j + 1 < |files| {
        assert Before(files[j], files[j + 1]);
      } else if j + 1 > |files| {
        assert Before(shards[j - |files|], shards[j - |files| + 1]);
      }
    }
  }

  lemma {:induction false} TilesAreOrdered(shards: seq<Shard>, layer: nat, numExperts: nat, expertsPerFile: nat)
    requires Tiles(shards, layer, numExperts, expertsPerFile) && expertsPerFile > 0
    ensures forall j | 0 <= j < |shards| :: shards[j].layer == layer && shards[j].first <= shards[j].last < numExperts
    ensures Ascending(shards)
  {
    forall j | 0 <= j < |shards| - 1
      ensures Before(shards[j], shards[j + 1])
    {
      assert (j + 1) * expertsPerFile == j * expertsPerFile + expertsPerFile;
    }
  }

  function MatrixBytes(platform: Platform, rows: nat, columns: nat, scalarType: PackedScalarType): Option<nat> {
    match platform.CheckedMul(rows, columns)
    case None => None
    case Some(elements) => platform.CheckedMul(elements, scalarType.ByteWidth())
  }

  /** The fused tensors of a layer are there, with the expected shapes and scalar type. */
  predicate FusedLayerReady(platform: Platform, source: map<TensorName, Tensor>, config: MoeLayerConfig,
                            scalarType: PackedScalarType, layer: nat)
  {
    && FusedGateUp(layer) in source && FusedDown(layer) in source
    && 2 * config.intermediateSize < platform.limit
    && source[FusedGateUp(layer)].shape == [config.numExperts, 2 * config.intermediateSize, config.hiddenSize]
    && source[FusedDown(layer)].shape == [config.numExperts, config.hiddenSize, config.intermediateSize]
    && source[FusedGateUp(layer)].scalarType == source[FusedDown(layer)].scalarType == Some(scalarType)
  }

  /** When fused conversion succeeds: one scalar type throughout, everything encodable, and room in the buffer. */
  predicate FusedConverts(platform: Platform, source: map<TensorName, Tensor>, layers: seq<nat>,
                          config: MoeLayerConfig, options: Options)
  {
    && config.Valid() && layers != [] && FusedGateUp(layers[0]) in source
    && var scalarType := source[FusedGateUp(layers[0])].scalarType;
    && scalarType.Some?
    && var size := MatrixBytes(platform, config.intermediateSize, config.hiddenSize, scalarType.value);
    && size.Some? && 2 * size.value < U64
    && forall i | 0 <= i < |layers| ::
       FusedLayerConverts(platform, source, config, scalarType.value, size.value, options, layers[i])
  }

  predicate FusedLayerConverts(platform: Platform, source: map<TensorName, Tensor>, config: MoeLayerConfig,
                               scalarType: PackedScalarType, size: nat, options: Options, layer: nat)
  {
    && FusedLayerReady(platform, source, config, scalarType, layer)
    && LayerConverts(platform, config, scalarType, FusedMatrices(source, size), size, layer, options)
  }

  lemma {:induction false} FusedLengths(platform: Platform, source: map<TensorName, Tensor>, config: MoeLayerConfig,
                                        scalarType: PackedScalarType, layer: nat, size: nat)
    requires StoreValid(source) && FusedLayerReady(platform, source, config, scalarType, layer)
    requires MatrixBytes(platform, config.intermediateSize, config.hiddenSize, scalarType) == Some(size)
    ensures |source[FusedGateUp(layer)].data| == config.numExperts * (2 * size)
    ensures |source[FusedDown(layer)].data| == config.numExperts * size
  {
    var experts, rows, columns, width := config.numExperts, config.intermediateSize, config.hiddenSize,
        scalarType.ByteWidth();
    assert Elements([experts, 2 * rows, columns]) == experts * (2 * rows * columns) by {
      ThreeDimensions(experts, 2 * rows, columns);
    }
    assert Elements([experts, columns, rows]) == experts * (columns * rows) by {
      ThreeDimensions(experts, columns, rows);
    }
    Regroup(experts, rows, columns, width);
  }

  lemma {:induction false} ThreeDimensions(a: nat, b: nat, c: nat)
    ensures Elements([a, b, c]) == a * (b * c)
  {
    assert [a, b, c][1..] == [b, c] && [b, c][1..] == [c] && [c][1..] == [];
    assert Elements([c]) == c;
  }

  lemma {:induction false} Regroup(experts: nat, rows: nat, columns: nat, width: nat)
    ensures experts * (2 * rows * columns) * width == experts * (2 * (rows * columns * width))
    ensures experts * (columns * rows) * width == experts * (rows * columns * width)
  {
    var block := rows * columns;
    assert 2 * rows * columns == 2 * block && columns * rows == block;
    assert experts * (2 * block) * width == experts * (2 * (block * width));
    assert experts * block * width == experts * (block * width);
  }

  /** Converts every layer of a fused checkpoint. */
  method ConvertFused(platform: Platform, source: map<TensorName, Tensor>, layers: seq<nat>, config: MoeLayerConfig,
                      options: Options, peak: nat)
    returns (result: Result<Converted>, newPeak: nat)
    requires platform.Valid() && StoreValid(source) && options.Valid(config.numExperts)
    ensures result.Ok? <==> FusedConverts(platform, source, layers, config, options)
    ensures result.Ok? ==> source[FusedGateUp(layers[0])].scalarType == Some(result.value.scalarType)
    ensures result.Ok? ==>
      var size := MatrixBytes(platform, config.intermediateSize, config.hiddenSize, result.value.scalarType);
      && size.Some?
      && Covers(config, result.value.scalarType, FusedMatrices(source, size.value), layers, options, result.value.files)
      && result.value.packedExperts == |layers| * config.numExperts
    ensures peak <= newPeak <= Max(peak, options.maxBufferBytes)
  {
    hide Covers, LayerConverts, LayerShards, StoreValid;
    newPeak := peak;
    if !config.Valid() || layers == [] {
      return Err(InvalidConfig), newPeak;
    }
    if FusedGateUp(layers[0]) !in source || source[FusedGateUp(layers[0])].scalarType.None? {
      return Err(InvalidTensor), newPeak;
    }
    var firstScalar := source[FusedGateUp(layers[0])].scalarType.value;
    var section := MatrixBytes(platform, config.intermediateSize, config.hiddenSize, firstScalar);
    if section.None? || 2 * section.value >= U64 {
      return Err(InvalidTensor), newPeak;
    }
    var size := section.value;
    ghost var matrices := FusedMatrices(source, size);
    var files: seq<Shard>, collection: Option<PackedScalarType>, packed := [], None, 0;
    NoLayers(config, firstScalar, matrices, options);
    for n := 0 to |layers|
      invariant Covers(config, firstScalar, matrices, layers[..n], options, files) && packed == n * config.numExperts
      invariant collection == if n == 0 then None else Some(firstScalar)
      invariant forall i | 0 <= i < n ::
                FusedLayerConverts(platform, source, config, firstScalar, size, options, layers[i])
      invariant peak <= newPeak <= Max(peak, options.maxBufferBytes)
    {
      var layer := layers[n];
      var scalarType := FusedScalar(platform, source, config, layer);
      if scalarType.Err? || (collection.Some? && collection.value != scalarType.value) {
        return Err(InvalidTensor), newPeak;
      }
      collection := Some(scalarType.value);
      FusedLengths(platform, source, config, firstScalar, layer, size);
      var shards;
      shards, newPeak := FusedLayer(platform, config, firstScalar, size, source[FusedGateUp(layer)].data,
                                    source[FusedDown(layer)].data,
                                    layer, options, newPeak, matrices);
      if shards.Err? {
        return Err(shards.error), newPeak;
      }
      CoversNext(config, firstScalar, matrices, layers[..n], options, files, layer, shards.value);
      assert layers[..n] + [layer] == layers[..n + 1];
      files, packed := files + shards.value, packed + config.numExperts;
    }
    assert layers[..|layers|] == layers;
    result := Ok(Converted(files, firstScalar, packed));
  }

  lemma {:induction false} NoLayers(config: MoeLayerConfig, scalarType: PackedScalarType, matrices: Matrices,
                                    options: Options)
    requires options.Valid(config.numExperts)
    ensures Covers(config, scalarType, matrices, [], options, [])
  {
  }

  /** The scalar type of a layer whose fused tensors are as expected. */
  method FusedScalar(platform: Platform, source: map<TensorName, Tensor>, config: MoeLayerConfig, layer: nat)
    returns (result: Result<PackedScalarType>)
    ensures result.Ok? <==> exists scalarType :: FusedLayerReady(platform, source, config, scalarType, layer)
    ensures result.Ok? ==> FusedLayerReady(platform, source, config, result.value, layer)
  {
    if FusedGateUp(layer) !in source || FusedDown(layer) !in source || 2 * config.intermediateSize >= platform.limit {
      return Err(InvalidTensor);
    }
    var gateUp, down := source[FusedGateUp(layer)], source[FusedDown(layer)];
    if gateUp.shape != [config.numExperts, 2 * config.intermediateSize, config.hiddenSize] {
      return Err(InvalidTensor);
    }
    if down.shape != [config.numExperts, config.hiddenSize, config.intermediateSize] {
      return Err(InvalidTensor);
    }
    if gateUp.scalarType.None? || down.scalarType != gateUp.scalarType {
      return Err(InvalidTensor);
    }
    assert FusedLayerReady(platform, source, config, gateUp.scalarType.value, layer);
    result := Ok(gateUp.scalarType.value);
  }

  // ----- the split layout -----

  /** The three tensors of an expert are there, with the expected shapes and one scalar type. */
  predicate SplitExpertReady(source: map<TensorName, Tensor>, config: MoeLayerConfig, scalarType: PackedScalarType,
                             layer: nat, expert: nat)
  {
    && SplitGate(layer, expert) in source && SplitUp(layer, expert) in source && SplitDown(layer, expert) in source
    && source[SplitGate(layer, expert)].shape == source[SplitUp(layer, expert)].shape
       == [config.intermediateSize, config.hiddenSize]
    && source[SplitDown(layer, expert)].shape == [config.hiddenSize, config.intermediateSize]
    && source[SplitGate(layer, expert)].scalarType == source[SplitUp(layer, expert)].scalarType
       == source[SplitDown(layer, expert)].scalarType == Some(scalarType)
  }

  function SplitMatrices(source: map<TensorName, Tensor>, config: MoeLayerConfig,
                         scalarType: PackedScalarType): Matrices
  {
    (layer: nat, expert: nat) =>
      if SplitExpertReady(source, config, scalarType, layer, expert)
      then Sections(source[SplitGate(layer, expert)].data, source[SplitUp(layer, expert)].data,
                    source[SplitDown(layer, expert)].data)
      else Sections([], [], [])
  }

  function MatrixSize(config: MoeLayerConfig, scalarType: PackedScalarType): nat {
    config.intermediateSize * config.hiddenSize * scalarType.ByteWidth()
  }

  lemma {:induction false} TwoDimensions(a: nat, b: nat)
    ensures Elements([a, b]) == a * b
  {
    assert [a, b][1..] == [b] && [b][1..] == [];
    assert Elements([b]) == b;
  }

  lemma {:induction false} SplitSizes(source: map<TensorName, Tensor>, config: MoeLayerConfig,
                                      scalarType: PackedScalarType, layer: nat, expert: nat)
    requires StoreValid(source) && SplitExpertReady(source, config, scalarType, layer, expert)
    ensures SourceBytes(SplitMatrices(source, config, scalarType)(layer, expert)) == 3 * MatrixSize(config, scalarType)
  {
    TwoDimensions(config.intermediateSize, config.hiddenSize);
    TwoDimensions(config.hiddenSize, config.intermediateSize);
    assert config.hiddenSize * config.intermediateSize == config.intermediateSize * config.hiddenSize;
  }

  /** An expert that is not ready has no encodable matrices. */
  lemma {:induction false} EmptyIsNotEncodable(platform: Platform, config: MoeLayerConfig, scalarType: PackedScalarType)
    requires config.Valid()
    ensures !Encodable(platform, config, scalarType, Sections([], [], []))
  {
    hide AllFinite, Values;
    assert config.hiddenSize * config.intermediateSize > 0;
  }

  /** Reads the tensors of an expert and checks them. */
  method ReadSplitExpert(source: map<TensorName, Tensor>, config: MoeLayerConfig, layer: nat, expert: nat)
    returns (result: Result<(PackedScalarType, Sections)>)
    ensures result.Ok? <==> exists scalarType :: SplitExpertReady(source, config, scalarType, layer, expert)
    ensures result.Ok? ==> SplitExpertReady(source, config, result.value.0, layer, expert)
    ensures result.Ok? ==> result.value.1 == SplitMatrices(source, config, result.value.0)(layer, expert)
  {
    if SplitGate(layer, expert) !in source || SplitUp(layer, expert) !in source || SplitDown(layer, expert) !in source {
      return Err(InvalidTensor);
    }
    var gate, up, down := source[SplitGate(layer, expert)], source[SplitUp(layer, expert)],
        source[SplitDown(layer, expert)];
    if gate.shape != [config.intermediateSize, config.hiddenSize]
      || up.shape != [config.intermediateSize, config.hiddenSize] {
      return Err(InvalidTensor);
    }
    if down.shape != [config.hiddenSize, config.intermediateSize] {
      return Err(InvalidTensor);
    }
    if gate.scalarType.None? || up.scalarType != gate.scalarType || down.scalarType != gate.scalarType {
      return Err(InvalidTensor);
    }
    assert SplitExpertReady(source, config, gate.scalarType.value, layer, expert);
    result := Ok((gate.scalarType.value, Sections(gate.data, up.data, down.data)));
  }

  /** The scalar type a split conversion settles on: that of the very first expert. */
  predicate Settled(source: map<TensorName, Tensor>, config: MoeLayerConfig, collection: Option<PackedScalarType>,
                    scalarType: PackedScalarType, layer: nat, expert: nat)
  {
    match collection
    case Some(settled) => settled == scalarType
    case None => forall other | SplitExpertReady(source, config, other, layer, expert) :: other == scalarType
  }

  method SplitShard(platform: Platform, source: map<TensorName, Tensor>, config: MoeLayerConfig,
                    collection: Option<PackedScalarType>, layer: nat, first: nat, end: nat, options: Options,
                    peak: nat, ghost scalarType: PackedScalarType)
    returns (result: Result<seq<Packed>>, settled: Option<PackedScalarType>, newPeak: nat)
    requires platform.Valid() && StoreValid(source) && config.Valid() && options.maxBufferBytes < U64 &&
             first < end <= config.numExperts
    requires Settled(source, config, collection, scalarType, layer, first)
    ensures var matrices, size := SplitMatrices(source, config, scalarType), MatrixSize(config, scalarType);
            && (result.Ok? <==>
                  && ShardBuffer(end - first, size) <= options.maxBufferBytes && layer < WORD
                  && ExpertsEncodable(platform, config, scalarType, matrices, size, layer, first, end))
            && (result.Ok? ==>
                result.value == RecordsOf(config, scalarType, matrices, layer, first, end) &&
                  settled == Some(scalarType))
            && (result.Ok? ==> newPeak == Max(peak, ShardBuffer(end - first, size)))
    ensures peak <= newPeak <= Max(peak, options.maxBufferBytes)
  {
    hide Encodable, Encoded, ExpertsEncodable, ShardBuffer, RecordsOf, SplitExpertReady, SplitMatrices, MatrixSize,
         StoreValid;
    ghost var matrices, size := SplitMatrices(source, config, scalarType), MatrixSize(config, scalarType);
    settled, newPeak := collection, peak;
    var records: seq<Packed>, retained: nat := [], 0;
    NothingPacked(platform, config, scalarType, matrices, size, layer, first);
    for expert := first to end
      invariant records == RecordsOf(config, scalarType, matrices, layer, first, expert)
      invariant retained + 3 * size == ShardBuffer(expert - first, size)
      invariant ExpertsEncodable(platform, config, scalarType, matrices, size, layer, first, expert)
      invariant expert > first ==> layer < WORD && ShardBuffer(expert - first, size) <= options.maxBufferBytes
      invariant newPeak == if expert == first then peak else Max(peak, ShardBuffer(expert - first, size))
      invariant settled == if expert == first then collection else Some(scalarType)
    {
      ShardBufferGrows(expert + 1 - first, end - first, size);
      ShardBufferGrows(expert - first, end - first, size);
      NextExpert(platform, config, scalarType, matrices, size, layer, first, expert, end);
      var read := ReadSplitExpert(source, config, layer, expert);
      SplitExpertCounts(platform, source, config, scalarType, layer, expert);
      if read.Err? {
        return Err(read.error), settled, newPeak;
      }
      var (actual, sections) := read.value;
      if settled.Some? && settled.value != actual {
        OneScalarType(source, config, scalarType, actual, layer, expert);
        return Err(InvalidTensor), settled, newPeak;
      }
      settled := Some(actual);
      var packed;
      packed, newPeak := PackExpert(platform, config, actual, sections, layer, expert, retained,
                                    options.maxBufferBytes, newPeak);
      if packed.Err? {
        return Err(packed.error), settled, newPeak;
      }
      EncodedLength(config, actual, sections);
      retained := retained + |packed.value.record|;
      RecordsOfNext(config, scalarType, matrices, layer, first, expert);
      records := records + [packed.value];
    }
    result := Ok(records);
  }

  /** An expert that can be encoded is ready; one that is ready has matrices of the expected size. */
  lemma {:induction false} SplitExpertCounts(platform: Platform, source: map<TensorName, Tensor>,
                                             config: MoeLayerConfig, scalarType: PackedScalarType, layer: nat,
                                             expert: nat)
    requires StoreValid(source) && config.Valid()
    ensures Encodable(platform, config, scalarType, SplitMatrices(source, config, scalarType)(layer, expert)) ==>
            SplitExpertReady(source, config, scalarType, layer, expert)
    ensures SplitExpertReady(source, config, scalarType, layer, expert) ==>
              SourceBytes(SplitMatrices(source, config, scalarType)(layer, expert))
                == 3 * MatrixSize(config, scalarType)
  {
    hide Encodable;
    EmptyIsNotEncodable(platform, config, scalarType);
    if SplitExpertReady(source, config, scalarType, layer, expert) {
      SplitSizes(source, config, scalarType, layer, expert);
    }
  }

  lemma {:induction false} OneScalarType(source: map<TensorName, Tensor>, config: MoeLayerConfig,
                                         left: PackedScalarType, right: PackedScalarType, layer: nat, expert: nat)
    requires SplitExpertReady(source, config, right, layer, expert) && left != right
    ensures !SplitExpertReady(source, config, left, layer, expert)
  {
  }

  method SplitLayer(platform: Platform, source: map<TensorName, Tensor>, config: MoeLayerConfig,
                    collection: Option<PackedScalarType>, layer: nat, options: Options, peak: nat,
                    ghost scalarType: PackedScalarType)
    returns (result: Result<seq<Shard>>, settled: Option<PackedScalarType>, newPeak: nat)
    requires platform.Valid() && StoreValid(source) && config.Valid() && options.Valid(config.numExperts)
    requires Settled(source, config, collection, scalarType, layer, 0)
    ensures var matrices, size := SplitMatrices(source, config, scalarType), MatrixSize(config, scalarType);
            && (result.Ok? <==> LayerConverts(platform, config, scalarType, matrices, size, layer, options))
            && (result.Ok? ==>
                LayerShards(config, scalarType, matrices, layer, options, result.value) && settled == Some(scalarType))
    ensures peak <= newPeak <= Max(peak, options.maxBufferBytes)
  {
    hide Encodable, ExpertsEncodable, ShardBuffer, RecordsOf, SplitExpertReady, SplitMatrices, MatrixSize, StoreValid;
    ghost var matrices, size := SplitMatrices(source, config, scalarType), MatrixSize(config, scalarType);
    settled, newPeak := collection, peak;
    var shards: seq<Shard>, first := [], 0;
    LayerStarts(platform, config, scalarType, matrices, size, layer, options);
    while first < config.numExperts
      invariant LayerProgress(platform, config, scalarType, matrices, size, layer, options, shards, first)
      invariant peak <= newPeak <= Max(peak, options.maxBufferBytes)
      invariant settled == if first == 0 then collection else Some(scalarType)
      decreases config.numExperts - first
    {
      var end := Min(first + options.expertsPerFile, config.numExperts);
      var records;
      records, settled, newPeak := SplitShard(platform, source, config, settled, layer, first, end, options, newPeak,
                                              scalarType);
      LayerStep(platform, config, scalarType, matrices, size, layer, options, shards, first, end, records);
      if records.Err? {
        return Err(records.error), settled, newPeak;
      }
      shards := shards + [Shard(layer, first, end - 1, records.value)];
      first := first + options.expertsPerFile;
    }
    LayerEnds(platform, config, scalarType, matrices, size, layer, options, shards, first);
    result := Ok(shards);
  }

  /** The layers below `count` with a routed feed-forward layer, in order. */
  function SparseLayers(count: nat, isSparse: nat -> bool): (layers: seq<nat>)
    ensures forall layer :: layer in layers <==> 0 <= layer < count && isSparse(layer)
  {
    if count == 0 then []
    else if isSparse(count - 1) then SparseLayers(count - 1, isSparse) + [count - 1]
    else SparseLayers(count - 1, isSparse)
  }

  lemma {:induction false} SparseLayersIncrease(count: nat, isSparse: nat -> bool)
    ensures IncreasingLayers(SparseLayers(count, isSparse))
  {
    if count == 0 {
    } else {
      SparseLayersIncrease(count - 1, isSparse);
      var before := SparseLayers(count - 1, isSparse);
      assert forall i | 0 <= i < |before| :: before[i] in before && before[i] < count - 1;
    }
  }

  lemma {:induction false} SparseNext(layer: nat, isSparse: nat -> bool)
    ensures SparseLayers(layer + 1, isSparse) == if isSparse(layer) then SparseLayers(layer, isSparse) + [layer]
            else SparseLayers(layer, isSparse)
  {
  }

  /** The scalar type of the first expert of a split checkpoint. */
  function FirstScalar(source: map<TensorName, Tensor>, layers: seq<nat>): Option<PackedScalarType> {
    if layers != [] && SplitGate(layers[0], 0) in source then source[SplitGate(layers[0], 0)].scalarType else None
  }

  predicate SplitConverts(platform: Platform, source: map<TensorName, Tensor>, layers: seq<nat>,
                          config: MoeLayerConfig, options: Options)
  {
    var scalarType := FirstScalar(source, layers);
    && config.Valid() && layers != [] && scalarType.Some?
    && forall i | 0 <= i < |layers| ::
         LayerConverts(platform, config, scalarType.value, SplitMatrices(source, config, scalarType.value),
                       MatrixSize(config, scalarType.value), layers[i], options)
  }

  /** Converts every sparse layer of a split checkpoint. */
  method ConvertSplit(platform: Platform, source: map<TensorName, Tensor>, layerCount: nat, isSparse: nat -> bool,
                      config: MoeLayerConfig, options: Options, peak: nat)
    returns (result: Result<Converted>, newPeak: nat)
    requires platform.Valid() && StoreValid(source) && options.Valid(config.numExperts)
    ensures var layers := SparseLayers(layerCount, isSparse);
            && (result.Ok? <==> SplitConverts(platform, source, layers, config, options))
            && (result.Ok? ==>
                  && FirstScalar(source, layers) == Some(result.value.scalarType)
                  && Covers(config, result.value.scalarType, SplitMatrices(source, config, result.value.scalarType),
                            layers, options, result.value.files)
                  && result.value.packedExperts == |layers| * config.numExperts)
    ensures peak <= newPeak <= Max(peak, options.maxBufferBytes)
  {
    hide Covers, LayerConverts, LayerShards, StoreValid, SplitMatrices, MatrixSize, SparseLayers, Settled, FirstScalar,
         SplitProgress;
    newPeak := peak;
    if !config.Valid() {
      return Err(InvalidConfig), newPeak;
    }
    ghost var all := SparseLayers(layerCount, isSparse);
    ghost var scalarType := if FirstScalar(source, all).Some? then FirstScalar(source, all).value else F32;
    var files: seq<Shard>, collection: Option<PackedScalarType>, packed: nat := [], None, 0;
    SplitStarts(platform, source, config, options, all, scalarType);
    SparseStarts(isSparse);
    for layer := 0 to layerCount
      invariant SplitProgress(platform, source, config, options, all, SparseLayers(layer, isSparse), scalarType, files,
                              packed, collection)
      invariant peak <= newPeak <= Max(peak, options.maxBufferBytes)
    {
      SparseNext(layer, isSparse);
      if !isSparse(layer) {
        continue;
      }
      ghost var before, earlier := SparseLayers(layer, isSparse), collection;
      SparsePrefix(layer + 1, layerCount, isSparse);
      SplitSettles(platform, source, config, options, all, before, scalarType, files, packed, collection, layer);
      var shards;
      shards, collection, newPeak := SplitLayer(platform, source, config, collection, layer, options, newPeak,
                                                scalarType);
      if shards.Err? {
        SplitFails(platform, source, config, options, all, before, scalarType, layer);
        return Err(shards.error), newPeak;
      }
      SplitNext(platform, source, config, options, all, before, scalarType, files, packed, earlier, layer,
                shards.value);
      files, packed := files + shards.value, packed + config.numExperts;
    }
    SplitEnds(platform, source, config, options, all, scalarType, files, packed, collection);
    if collection.None? {
      return Err(InvalidConfig), newPeak;
    }
    result := Ok(Converted(files, collection.value, packed));
  }

  lemma {:induction false} SparseStarts(isSparse: nat -> bool)
    ensures SparseLayers(0, isSparse) == []
  {
  }

  /** Where a split conversion stands after the sparse layers `before`. */
  predicate SplitProgress(platform: Platform, source: map<TensorName, Tensor>, config: MoeLayerConfig,
                          options: Options, all: seq<nat>, before: seq<nat>, scalarType: PackedScalarType,
                          files: seq<Shard>, packed: nat, collection: Option<PackedScalarType>)
    requires options.Valid(config.numExperts)
  {
    && Covers(config, scalarType, SplitMatrices(source, config, scalarType), before, options, files)
    && packed == |before| * config.numExperts
    && collection == (if before == [] then None else Some(scalarType))
    && (before != [] ==> FirstScalar(source, all) == Some(scalarType))
    && (forall other | other in before ::
          LayerConverts(platform, config, scalarType, SplitMatrices(source, config, scalarType),
                        MatrixSize(config, scalarType), other, options))
  }

  lemma {:induction false} SplitStarts(platform: Platform, source: map<TensorName, Tensor>, config: MoeLayerConfig,
                                       options: Options, all: seq<nat>, scalarType: PackedScalarType)
    requires options.Valid(config.numExperts)
    ensures SplitProgress(platform, source, config, options, all, [], scalarType, [], 0, None)
  {
    NoLayers(config, scalarType, SplitMatrices(source, config, scalarType), options);
    hide Covers, LayerConverts;
  }

  lemma {:induction false} SplitSettles(platform: Platform, source: map<TensorName, Tensor>, config: MoeLayerConfig,
                                        options: Options, all: seq<nat>, before: seq<nat>,
                                        scalarType: PackedScalarType, files: seq<Shard>, packed: nat,
                                        collection: Option<PackedScalarType>, layer: nat)
    requires options.Valid(config.numExperts) && before + [layer] <= all
    requires SplitProgress(platform, source, config, options, all, before, scalarType, files, packed, collection)
    requires FirstScalar(source, all).Some? ==> FirstScalar(source, all).value == scalarType
    ensures Settled(source, config, collection, scalarType, layer, 0)
  {
    hide Covers, LayerConverts;
    FirstSettles(source, config, all, before, layer, scalarType);
  }

  lemma {:induction false} SplitFails(platform: Platform, source: map<TensorName, Tensor>, config: MoeLayerConfig,
                                      options: Options, all: seq<nat>, before: seq<nat>, scalarType: PackedScalarType,
                                      layer: nat)
    requires before + [layer] <= all
    requires FirstScalar(source, all).Some? ==> FirstScalar(source, all).value == scalarType
    requires !LayerConverts(platform, config, scalarType, SplitMatrices(source, config, scalarType),
                            MatrixSize(config, scalarType), layer, options)
    ensures !SplitConverts(platform, source, all, config, options)
  {
    hide LayerConverts, MatrixSize, SplitMatrices, FirstScalar;
    assert all[|before|] == (before + [layer])[|before|] == layer;
  }

  lemma {:induction false} SplitNext(platform: Platform, source: map<TensorName, Tensor>, config: MoeLayerConfig,
                                     options: Options, all: seq<nat>, before: seq<nat>, scalarType: PackedScalarType,
                                     files: seq<Shard>, packed: nat, collection: Option<PackedScalarType>, layer: nat,
                                     shards: seq<Shard>)
    requires StoreValid(source) && config.Valid() && options.Valid(config.numExperts) && before + [layer] <= all
    requires SplitProgress(platform, source, config, options, all, before, scalarType, files, packed, collection)
    requires LayerConverts(platform, config, scalarType, SplitMatrices(source, config, scalarType),
                           MatrixSize(config, scalarType), layer, options)
    requires LayerShards(config, scalarType, SplitMatrices(source, config, scalarType), layer, options, shards)
    ensures SplitProgress(platform, source, config, options, all, before + [layer], scalarType, files + shards,
                          packed + config.numExperts, Some(scalarType))
  {
    FirstConverts(platform, source, config, scalarType, layer, options, all, before);
    CoversNext(config, scalarType, SplitMatrices(source, config, scalarType), before, options, files, layer, shards);
    CountNext(|before|, config.numExperts);
    hide Covers, LayerConverts, LayerShards, StoreValid, SplitMatrices, MatrixSize, FirstScalar;
  }

  lemma {:induction false} SplitEnds(platform: Platform, source: map<TensorName, Tensor>, config: MoeLayerConfig,
                                     options: Options, all: seq<nat>, scalarType: PackedScalarType, files: seq<Shard>,
                                     packed: nat, collection: Option<PackedScalarType>)
    requires options.Valid(config.numExperts) && config.Valid()
    requires SplitProgress(platform, source, config, options, all, all, scalarType, files, packed, collection)
    ensures collection.Some? <==> SplitConverts(platform, source, all, config, options)
    ensures collection.Some? ==>
      && FirstScalar(source, all) == Some(scalarType) && collection == Some(scalarType)
      && Covers(config, scalarType, SplitMatrices(source, config, scalarType), all, options, files) &&
         packed == |all| * config.numExperts
  {
    hide Covers, LayerConverts, MatrixSize, SplitMatrices, FirstScalar;
    assert forall i | 0 <= i < |all| :: all[i] in all;
  }

  lemma {:induction false} SparsePrefix(count: nat, all: nat, isSparse: nat -> bool)
    requires count <= all
    ensures SparseLayers(count, isSparse) <= SparseLayers(all, isSparse)
    decreases all
  {
    if count < all {
      SparsePrefix(count, all - 1, isSparse);
    }
  }

  /** Before the first sparse layer nothing is settled, and its first expert settles what the conversion expects. */
  lemma {:induction false} FirstSettles(source: map<TensorName, Tensor>, config: MoeLayerConfig, all: seq<nat>,
                                        before: seq<nat>, layer: nat, scalarType: PackedScalarType)
    requires before + [layer] <= all
    requires FirstScalar(source, all).Some? ==> FirstScalar(source, all).value == scalarType
    ensures before == [] ==> Settled(source, config, None, scalarType, layer, 0)
    ensures Settled(source, config, Some(scalarType), scalarType, layer, 0)
  {
    if before == [] {
      assert (before + [layer])[0] == layer;
      assert all[0] == layer;
    }
  }

  /** When the first sparse layer converts, its first expert has a scalar type. */
  lemma {:induction false} FirstConverts(platform: Platform, source: map<TensorName, Tensor>, config: MoeLayerConfig,
                                         scalarType: PackedScalarType, layer: nat, options: Options, all: seq<nat>,
                                         before: seq<nat>)
    requires StoreValid(source) && config.Valid() && before + [layer] <= all
    requires LayerConverts(platform, config, scalarType, SplitMatrices(source, config, scalarType),
                           MatrixSize(config, scalarType), layer, options)
    ensures before == [] ==> FirstScalar(source, all) == Some(scalarType)
  {
    hide Encodable, ShardBuffer, StoreValid, SplitMatrices, MatrixSize;
    assert ExpertEncodable(platform, config, scalarType, SplitMatrices(source, config, scalarType)(layer, 0),
                           MatrixSize(config, scalarType));
    SplitExpertCounts(platform, source, config, scalarType, layer, 0);
    if before == [] {
      assert (before + [layer])[0] == layer;
      assert all[0] == layer;
    }
  }

  // ----- the matrices are those of the resident loaders -----

  /** Element (row, column) of a section that holds a matrix with `columns` columns. */
  function SectionElement(section: seq<Byte>, columns: nat, width: nat, row: nat, column: nat): seq<Byte>
    requires (row * columns + column + 1) * width <= |section|
  {
    Element(section, row * columns + column, width)
  }

  lemma {:induction false} CellFits(rows: nat, columns: nat, width: nat, row: nat, column: nat)
    requires row < rows && column < columns
    ensures row * columns + column < rows * columns
    ensures (row * columns + column + 1) * width <= rows * columns * width
  {
    BlockFits(row, rows, columns);
    ProductGrows(row * columns + column + 1, rows * columns, width);
  }

  /** Reading element `cell` of the block that starts `block` elements into a tensor. */
  lemma {:induction false} ElementOfBlock(data: seq<Byte>, block: nat, count: nat, cell: nat, width: nat)
    requires cell < count && block * width + count * width <= |data|
    ensures (cell + 1) * width <= count * width && (block + cell + 1) * width <= |data|
    ensures Element(data[block * width..block * width + count * width], cell, width)
            == Element(data, block + cell, width)
  {
    ProductGrows(cell + 1, count, width);
    AtProduct(cell, width);
    AtProduct(block + cell, width);
    assert (block + cell) * width == block * width + cell * width;
    SectionSlice(data, block * width, count * width, cell * width, width);
  }

  /** A slice of a section is the slice of the whole, further on. */
  lemma {:induction false} SectionSlice(data: seq<Byte>, start: nat, size: nat, offset: nat, width: nat)
    requires start + size <= |data| && offset + width <= size
    ensures data[start..start + size][offset..offset + width] == data[start + offset..start + offset + width]
  {
    SliceOfSlice(data, start, start + size, offset, offset + width);
  }

  /**
   The resident loader narrows the fused tensors: expert `e` of the gate and up tensor is its rows
   2I*e .. 2I*e + 2I, the first I of them the gate and the others the up projection. The packed
   sections hold exactly these elements, in row-major order.
   */
  lemma {:induction false} FusedGateAndUpAreResident(gateUp: seq<Byte>, down: seq<Byte>, experts: nat, rows: nat,
                                                     columns: nat, width: nat, expert: nat, row: nat, column: nat)
    requires expert < experts && row < rows && column < columns
    requires |gateUp| == experts * (2 * (rows * columns * width)) && |down| == experts * (rows * columns * width)
    ensures var sections := FusedSections(gateUp, down, rows * columns * width, expert);
            && Matches(sections.gate, gateUp, 2 * rows * expert, columns, width, row, column)
            && Matches(sections.up, gateUp, 2 * rows * expert + rows, columns, width, row, column)
  {
    hide Matches;
    var size := rows * columns * width;
    BlockFits(expert, experts, 2 * size);
    BlockFits(expert, experts, size);
    FusedOffsets(expert, rows, columns, width);
    BlockMatches(gateUp, 2 * rows * expert, rows, columns, width, row, column, expert * (2 * size), size);
    BlockMatches(gateUp, 2 * rows * expert + rows, rows, columns, width, row, column, expert * (2 * size) + size, size);
  }

  /** Expert `e` of the down tensor is its rows H*e .. H*e + H, and its packed section holds exactly these. */
  lemma {:induction false} FusedDownIsResident(gateUp: seq<Byte>, down: seq<Byte>, experts: nat, rows: nat,
                                               columns: nat, width: nat, expert: nat, row: nat, column: nat)
    requires expert < experts && row < columns && column < rows
    requires |gateUp| == experts * (2 * (rows * columns * width)) && |down| == experts * (rows * columns * width)
    ensures Matches(FusedSections(gateUp, down, rows * columns * width, expert).down, down, columns * expert, rows,
                    width, row, column)
  {
    hide Matches;
    var size := rows * columns * width;
    BlockFits(expert, experts, 2 * size);
    BlockFits(expert, experts, size);
    FusedOffsets(expert, rows, columns, width);
    assert columns * rows == rows * columns;
    BlockMatches(down, columns * expert, columns, rows, width, row, column, expert * size, size);
  }

  /** Byte offsets of the rows at which an expert's matrices start. */
  lemma {:induction false} FusedOffsets(expert: nat, rows: nat, columns: nat, width: nat)
    ensures 2 * rows * expert * columns * width == expert * (2 * (rows * columns * width))
    ensures (2 * rows * expert + rows) * columns * width == expert * (2 * (rows * columns * width))
            + rows * columns * width
    ensures columns * expert * rows * width == expert * (rows * columns * width)
  {
    var block := rows * columns;
    assert 2 * rows * expert * columns == 2 * expert * block;
    assert 2 * expert * block * width == expert * (2 * (block * width));
    assert (2 * rows * expert + rows) * columns == 2 * rows * expert * columns + block;
    assert (2 * rows * expert * columns + block) * width == 2 * rows * expert * columns * width + block * width;
    assert columns * expert * rows == expert * block;
    assert expert * block * width == expert * (block * width);
  }

  /** A section's element is the element of a tensor with `columns` columns, `start` rows further down. */
  predicate Matches(section: seq<Byte>, data: seq<Byte>, start: nat, columns: nat, width: nat, row: nat, column: nat) {
    && (row * columns + column + 1) * width <= |section|
    && ((start + row) * columns + column + 1) * width <= |data|
    && SectionElement(section, columns, width, row, column) == SectionElement(data, columns, width, start + row, column)
  }

  lemma {:induction false} BlockMatches(data: seq<Byte>, start: nat, rows: nat, columns: nat, width: nat, row: nat,
                                        column: nat, from: nat, size: nat)
    requires row < rows && column < columns
    requires from == start * columns * width && size == rows * columns * width && from + size <= |data|
    ensures Matches(data[from..from + size], data, start, columns, width, row, column)
  {
    CellFits(rows, columns, width, row, column);
    ElementOfBlock(data, start * columns, rows * columns, row * columns + column, width);
    assert (start + row) * columns == start * columns + row * columns;
    hide Element;
  }

  // ----- what a record holds, read back -----

  /** The sections of the record of an expert, as its parser returns them. */
  function SectionsOnDisk(platform: Platform, config: MoeLayerConfig, scalarType: PackedScalarType, matrices: Matrices,
                          layer: nat, expert: nat): Option<Sections>
  {
    match Parse(platform, ExpertRecord(config, scalarType, matrices, layer, expert).record, config)
    case Ok(record) => if record.scalarType == scalarType then Some(record.GetSections()) else None
    case Err(_) => None
  }

  lemma {:induction false} SectionsReadBack(platform: Platform, config: MoeLayerConfig, scalarType: PackedScalarType,
                                            matrices: Matrices, layer: nat, expert: nat)
    requires platform.Valid() && Encodable(platform, config, scalarType, matrices(layer, expert))
    ensures SectionsOnDisk(platform, config, scalarType, matrices, layer, expert) == Some(matrices(layer, expert))
  {
    hide Parse, Encoded, Encodable;
    ParseOfEncoded(platform, config, scalarType, matrices(layer, expert));
  }

  /** A split expert's record, read back, holds the bytes of its own gate, up and down tensors and no others. */
  lemma {:induction false} SplitRecordIsTensors(platform: Platform, source: map<TensorName, Tensor>,
                                                config: MoeLayerConfig, scalarType: PackedScalarType, layer: nat,
                                                expert: nat)
    requires platform.Valid() && StoreValid(source) && config.Valid()
    requires Encodable(platform, config, scalarType, SplitMatrices(source, config, scalarType)(layer, expert))
    ensures SplitGate(layer, expert) in source && SplitUp(layer, expert) in source && SplitDown(layer, expert) in source
    ensures SectionsOnDisk(platform, config, scalarType, SplitMatrices(source, config, scalarType), layer, expert)
         == Some(Sections(source[SplitGate(layer, expert)].data, source[SplitUp(layer, expert)].data,
                          source[SplitDown(layer, expert)].data))
  {
    SplitExpertCounts(platform, source, config, scalarType, layer, expert);
    hide Encodable;
    SectionsReadBack(platform, config, scalarType, SplitMatrices(source, config, scalarType), layer, expert);
  }

  /**
   The element at a row and column of each section is the one that the resident loader narrows out of the fused
   tensors: expert `e` owns the rows 2I*e .. 2I*e + I and 2I*e + I .. 2I*e + 2I of one, and H*e .. H*e + H of the other.
   */
  predicate IsNarrowed(sections: Sections, gateUp: seq<Byte>, down: seq<Byte>, rows: nat, columns: nat, width: nat,
                       expert: nat, row: nat, column: nat)
  {
    && Matches(sections.gate, gateUp, 2 * rows * expert, columns, width, row, column)
    && Matches(sections.up, gateUp, 2 * rows * expert + rows, columns, width, row, column)
    && Matches(sections.down, down, columns * expert, rows, width, column, row)
  }

  lemma {:induction false} FusedSectionsAreNarrowed(gateUp: seq<Byte>, down: seq<Byte>, experts: nat, rows: nat,
                                                    columns: nat, width: nat, expert: nat, row: nat, column: nat)
    requires expert < experts && row < rows && column < columns
    requires |gateUp| == experts * (2 * (rows * columns * width)) && |down| == experts * (rows * columns * width)
    ensures IsNarrowed(FusedSections(gateUp, down, rows * columns * width, expert), gateUp, down, rows, columns, width,
                       expert, row, column)
  {
    hide Matches, FusedSections;
    FusedGateAndUpAreResident(gateUp, down, experts, rows, columns, width, expert, row, column);
    FusedDownIsResident(gateUp, down, experts, rows, columns, width, expert, column, row);
  }

  /** A fused expert's record, read back, holds exactly the elements that the resident loader narrows out. */
  lemma {:induction false} FusedRecordIsResident(platform: Platform, source: map<TensorName, Tensor>,
                                                 config: MoeLayerConfig, scalarType: PackedScalarType, size: nat,
                                                 layer: nat, expert: nat, row: nat, column: nat)
    requires platform.Valid() && StoreValid(source) && config.Valid() && expert < config.numExperts
    requires row < config.intermediateSize && column < config.hiddenSize
    requires FusedLayerReady(platform, source, config, scalarType, layer)
    requires MatrixBytes(platform, config.intermediateSize, config.hiddenSize, scalarType) == Some(size)
    requires Encodable(platform, config, scalarType, FusedMatrices(source, size)(layer, expert))
    ensures
      var onDisk := SectionsOnDisk(platform, config, scalarType, FusedMatrices(source, size), layer, expert);
      && onDisk.Some?
      && IsNarrowed(onDisk.value, source[FusedGateUp(layer)].data, source[FusedDown(layer)].data,
                    config.intermediateSize, config.hiddenSize, scalarType.ByteWidth(), expert, row, column)
  {
    hide IsNarrowed, StoreValid, Encodable, FusedSections, SectionsOnDisk;
    FusedLengths(platform, source, config, scalarType, layer, size);
    SectionsReadBack(platform, config, scalarType, FusedMatrices(source, size), layer, expert);
    FusedSectionsAreNarrowed(source[FusedGateUp(layer)].data, source[FusedDown(layer)].data, config.numExperts,
                             config.intermediateSize, config.hiddenSize, scalarType.ByteWidth(), expert, row, column);
  }
}

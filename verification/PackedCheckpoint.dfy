/**
 The packed checkpoint around its records: bounded copies of the dense tensors, file names that sort
 like their indices, and the validator's view of what a conversion wrote.
 */
module PackedCheckpoint {
  import opened Wrappers
  import opened Router
  import opened PackedRecord
  import opened Conversion

  // ----- dense tensors -----

  /** Copies a tensor behind its header, at most `maxBufferBytes` at a time. */
  method WriteRawTensorStreaming(header: seq<Byte>, tensor: seq<Byte>, maxBufferBytes: nat, peak: nat)
    returns (result: Result<seq<Byte>>, newPeak: nat)
    requires 0 < maxBufferBytes < U64 && |tensor| < U64
    ensures result.Ok? <==> |header| <= maxBufferBytes
    ensures result.Ok? ==> result.value == header + tensor
    ensures newPeak == if result.Ok? then Max(Max(peak, |header|), Min(|tensor|, maxBufferBytes)) else peak
    ensures peak <= newPeak <= Max(peak, maxBufferBytes)
  {
    newPeak := peak;
    if |header| > maxBufferBytes {
      return Err(InvalidConfig), newPeak;
    }
    newPeak := Max(newPeak, |header|);
    var written, offset := header, 0;
    while offset < |tensor|
      invariant offset <= |tensor| && written == header + tensor[..offset]
      invariant newPeak == Max(Max(peak, |header|), Min(offset, maxBufferBytes))
      invariant 0 < offset < |tensor| ==> offset >= maxBufferBytes
      decreases |tensor| - offset
    {
      var bytes := Min(|tensor| - offset, maxBufferBytes);
      var read := tensor[offset..offset + bytes];
      assert tensor[..offset + bytes] == tensor[..offset] + read;
      written := written + read;
      newPeak := Max(newPeak, bytes);
      offset := offset + bytes;
    }
    assert tensor[..offset] == tensor;
    result := Ok(written);
  }

  // ----- file names -----

  function Digit(n: nat): char
    requires n < 10
  {
    '0' + n as char
  }

  /** The last `width` decimal digits of `n`. */
  function Digits(n: nat, width: nat): (digits: string)
    ensures |digits| == width
  {
    if width == 0 then "" else Digits(n / 10, width - 1) + [Digit(n % 10)]
  }

  function Pow10(width: nat): nat {
    if width == 0 then 1 else 10 * Pow10(width - 1)
  }

  /** How many decimal digits a number needs. */
  function DigitCount(n: nat): (count: nat)
    ensures count > 0
  {
    if n < 10 then 1 else 1 + DigitCount(n / 10)
  }

  /** A number in decimal, padded with zeros to five digits. */
  function Padded(n: nat): string {
    Digits(n, if DigitCount(n) < 5 then 5 else DigitCount(n))
  }

  function FileName(file: Shard): string {
    "layer-" + (Padded(file.layer) + ("-experts-"
                                      + (Padded(file.first) + ("-" + (Padded(file.last) + ".safetensors")))))
  }

  /** The order in which a directory listing sorts names. */
  predicate Precedes(left: string, right: string) {
    right != "" && (left == "" || left[0] < right[0] || (left[0] == right[0] && Precedes(left[1..], right[1..])))
  }

  lemma {:induction false} PrecedesAfterPrefix(prefix: string, left: string, right: string)
    ensures Precedes(prefix + left, prefix + right) <==> Precedes(left, right)
    decreases prefix
  {
    if prefix == "" {
      assert prefix + left == left && prefix + right == right;
    } else {
      PrecedesAfterPrefix(prefix[1..], left, right);
      assert (prefix + left)[1..] == prefix[1..] + left && (prefix + right)[1..] == prefix[1..] + right;
    }
  }

  lemma {:induction false} PrecedesWithSuffix(left: string, right: string, leftRest: string, rightRest: string)
    requires |left| == |right| && Precedes(left, right)
    ensures Precedes(left + leftRest, right + rightRest)
    decreases left
  {
    assert (left + leftRest)[0] == left[0] && (right + rightRest)[0] == right[0];
    if left[0] == right[0] {
      PrecedesWithSuffix(left[1..], right[1..], leftRest, rightRest);
      assert (left + leftRest)[1..] == left[1..] + leftRest && (right + rightRest)[1..] == right[1..] + rightRest;
    }
  }

  lemma {:induction false} PrecedesIsTransitive(a: string, b: string, c: string)
    requires Precedes(a, b) && Precedes(b, c)
    ensures Precedes(a, c)
    decreases a
  {
    if a != "" && a[0] == b[0] == c[0] {
      PrecedesIsTransitive(a[1..], b[1..], c[1..]);
    }
  }

  lemma {:induction false} PrecedesIsStrict(a: string)
    ensures !Precedes(a, a)
    decreases a
  {
    if a != "" {
      PrecedesIsStrict(a[1..]);
    }
  }

  /** Fixed-width decimals sort like the numbers. */
  lemma {:induction false} DigitsSort(a: nat, b: nat, width: nat)
    requires a < b < Pow10(width)
    ensures Precedes(Digits(a, width), Digits(b, width))
    decreases width
  {
    if a / 10 < b / 10 {
      DigitsSort(a / 10, b / 10, width - 1);
      PrecedesWithSuffix(Digits(a / 10, width - 1), Digits(b / 10, width - 1), [Digit(a % 10)], [Digit(b % 10)]);
    } else {
      assert a / 10 == b / 10 && a % 10 < b % 10;
      PrecedesAfterPrefix(Digits(a / 10, width - 1), [Digit(a % 10)], [Digit(b % 10)]);
    }
  }

  lemma {:induction false} FiveDigitsSuffice(n: nat)
    requires n < 100000
    ensures Padded(n) == Digits(n, 5)
  {
    assert n / 10 < 10000 && n / 10 / 10 < 1000 && n / 10 / 10 / 10 < 100 && n / 10 / 10 / 10 / 10 < 10;
    assert DigitCount(n / 10 / 10 / 10 / 10) == 1;
    assert DigitCount(n / 10 / 10 / 10) <= 2;
    assert DigitCount(n / 10 / 10) <= 3;
    assert DigitCount(n / 10) <= 4;
  }

  lemma {:induction false} PaddedSorts(a: nat, b: nat)
    requires a < b < 100000
    ensures Precedes(Padded(a), Padded(b)) && |Padded(a)| == |Padded(b)| == 5
  {
    FiveDigitsSuffice(a);
    FiveDigitsSuffice(b);
    assert Pow10(3) == 1000;
    assert Pow10(5) == 100000;
    DigitsSort(a, b, 5);
  }

  /** Below 100000 the names of ascending files ascend. */
  lemma {:induction false} NamesAscend(left: Shard, right: Shard)
    requires Before(left, right)
    requires left.layer < 100000 && right.layer < 100000 && left.first < 100000 && right.first < 100000
    ensures Precedes(FileName(left), FileName(right))
  {
    hide Padded;
    var leftRest := "-experts-" + (Padded(left.first) + ("-" + (Padded(left.last) + ".safetensors")));
    var rightRest := "-experts-" + (Padded(right.first) + ("-" + (Padded(right.last) + ".safetensors")));
    if left.layer < right.layer {
      PaddedSorts(left.layer, right.layer);
      PrecedesWithSuffix(Padded(left.layer), Padded(right.layer), leftRest, rightRest);
    } else {
      PaddedSorts(left.first, right.first);
      PrecedesWithSuffix(Padded(left.first), Padded(right.first), "-" + (Padded(left.last) + ".safetensors"),
                         "-" + (Padded(right.last) + ".safetensors"));
      PrecedesAfterPrefix("-experts-", Padded(left.first) + ("-" + (Padded(left.last) + ".safetensors")),
                          Padded(right.first) + ("-" + (Padded(right.last) + ".safetensors")));
      PrecedesAfterPrefix(Padded(left.layer), leftRest, rightRest);
    }
    PrecedesAfterPrefix("layer-", Padded(left.layer) + leftRest, Padded(right.layer) + rightRest);
  }

  /** From 100000 on the padding no longer helps. */
  lemma {:induction false} SixDigitsBreakTheOrder()
    ensures Precedes(FileName(Shard(100000, 0, 0, [])), FileName(Shard(99999, 0, 0, [])))
  {
    SixDigitLayer();
    hide Padded;
    var rest := "-experts-" + (Padded(0) + ("-" + (Padded(0) + ".safetensors")));
    var six, five := Padded(100000) + rest, Padded(99999) + rest;
    assert six[0] == Padded(100000)[0] && five[0] == Padded(99999)[0];
    PrecedesAfterPrefix("layer-", six, five);
  }

  lemma {:induction false} SixDigitsBreakTheOrderOfExperts()
    ensures Precedes(FileName(Shard(0, 100000, 100000, [])), FileName(Shard(0, 99999, 99999, [])))
  {
    SixDigitLayer();
    hide Padded;
    var six, five := Padded(100000) + ("-" + (Padded(100000) + ".safetensors")),
        Padded(99999) + ("-" + (Padded(99999) + ".safetensors"));
    assert six[0] == Padded(100000)[0] && five[0] == Padded(99999)[0];
    PrecedesAfterPrefix("-experts-", six, five);
    PrecedesAfterPrefix(Padded(0), "-experts-" + six, "-experts-" + five);
    PrecedesAfterPrefix("layer-", Padded(0) + ("-experts-" + six), Padded(0) + ("-experts-" + five));
  }

  /** Names ascend with their files, for all files of layers and first experts below the given bounds. */
  ghost predicate NamesAscendBelow(layers: nat, firsts: nat) {
    forall left: Shard, right: Shard |
      && Before(left, right)
      && left.layer < layers && right.layer < layers && left.first < firsts && right.first < firsts
      :: Precedes(FileName(left), FileName(right))
  }

  /** Five digits are enough for exactly the indices below 100000. */
  lemma {:induction false} NamesAscendIffFiveDigits(layers: nat, firsts: nat)
    ensures NamesAscendBelow(layers, firsts) <==> layers == 0 || firsts == 0 || (layers <= 100000 && firsts <= 100000)
  {
    hide FileName;
    if layers <= 100000 && firsts <= 100000 {
      forall left: Shard, right: Shard |
        && Before(left, right)
        && left.layer < layers && right.layer < layers && left.first < firsts && right.first < firsts
        ensures Precedes(FileName(left), FileName(right))
      {
        NamesAscend(left, right);
      }
    } else if layers > 0 && firsts > 0 {
      var five, six := if layers > 100000 then Shard(99999, 0, 0, []) else Shard(0, 99999, 99999, []),
                       if layers > 100000 then Shard(100000, 0, 0, []) else Shard(0, 100000, 100000, []);
      assert Before(five, six);
      SixDigitsBreakTheOrder();
      SixDigitsBreakTheOrderOfExperts();
      if Precedes(FileName(five), FileName(six)) {
        PrecedesIsTransitive(FileName(five), FileName(six), FileName(five));
        PrecedesIsStrict(FileName(five));
      }
    }
  }

  lemma {:induction false} LeadingDigit(n: nat, width: nat, lead: nat)
    requires width > 0 && lead < 10 && lead * Pow10(width - 1) <= n < (lead + 1) * Pow10(width - 1)
    ensures Digits(n, width)[0] == Digit(lead)
    decreases width
  {
    if width == 1 {
      assert Digits(n, 1) == "" + [Digit(n % 10)];
    } else {
      var unit := Pow10(width - 2);
      assert lead * (10 * unit) == 10 * (lead * unit) && (lead + 1) * (10 * unit) == 10 * ((lead + 1) * unit);
      LeadingDigit(n / 10, width - 1, lead);
    }
  }

  lemma {:induction false} SixDigitLayer()
    ensures |Padded(100000)| == 6 && |Padded(99999)| == 5
    ensures Padded(100000)[0] < Padded(99999)[0]
  {
    hide Digits;
    FiveDigitsSuffice(99999);
    assert DigitCount(1000) == 4;
    assert DigitCount(100000) == 6;
    assert Pow10(3) == 1000;
    LeadingDigit(99999, 5, 9);
    LeadingDigit(100000, 6, 1);
  }

  // ----- the validator -----

  /** What lies between the slashes of a path. */
  function Pieces(path: string): (pieces: seq<string>)
    ensures pieces != []
  {
    if path == "" then [""]
    else
      var rest := Pieces(path[1..]);
      if path[0] == '/' then [""] + rest else [[path[0]] + rest[0]] + rest[1..]
  }

  const EXTENSION := ".safetensors"

  /**
   One relative file name with the extension of shards. Slashes and single dots after it do not count as components.
   */
  predicate ShardName(name: string) {
    var pieces := Pieces(name);
    && pieces[0] !in ["", ".", ".."]
    && (forall i | 0 < i < |pieces| :: pieces[i] in ["", "."])
    && HasExtension(pieces[0])
  }

  predicate HasExtension(file: string) {
    |file| > |EXTENSION| && file[|file| - |EXTENSION|..] == EXTENSION
  }

  /** The file list of a manifest is not empty, names shards, and repeats none. */
  predicate FilesAccepted(files: seq<string>) {
    && files != []
    && (forall file | file in files :: ShardName(file))
    && (forall i, j | 0 <= i < j < |files| :: files[i] != files[j])
  }

  method ValidateManifestFiles(files: seq<string>) returns (result: Result<()>)
    ensures result.Ok? <==> FilesAccepted(files)
  {
    hide ShardName;
    if files == [] {
      return Err(InvalidConfig);
    }
    var unique: set<string> := {};
    for i := 0 to |files|
      invariant forall name :: name in unique <==> name in files[..i]
      invariant forall j | 0 <= j < i :: ShardName(files[j])
      invariant forall j, k | 0 <= j < k < i :: files[j] != files[k]
    {
      if !ShardName(files[i]) {
        return Err(InvalidConfig);
      }
      if files[i] in unique {
        return Err(InvalidConfig);
      }
      unique := unique + {files[i]};
    }
    result := Ok(());
  }

  lemma {:induction false} OnePiece(path: string)
    requires '/' !in path
    ensures Pieces(path) == [path]
    decreases path
  {
    if path == "" {
    } else {
      assert path[0] in path;
      OnePiece(path[1..]);
      assert [path[0]] + path[1..] == path;
    }
  }

  lemma {:induction false} DigitsHaveNoSlash(n: nat, width: nat)
    ensures '/' !in Digits(n, width)
    decreases width
  {
    if width == 0 {
    } else {
      DigitsHaveNoSlash(n / 10, width - 1);
      assert Digit(n % 10) != '/';
    }
  }

  /** A plain name in front of the extension makes a shard name. */
  lemma {:induction false} PlainShardName(stem: string)
    requires stem != "" && '/' !in stem
    ensures ShardName(stem + EXTENSION)
  {
    hide Pieces;
    var name := stem + EXTENSION;
    assert forall c | c in EXTENSION :: c != '/';
    OnePiece(name);
    assert name[|stem|..] == EXTENSION;
  }

  lemma {:induction false} ConvertedNameIsShardName(file: Shard)
    ensures ShardName(FileName(file))
  {
    hide Padded, ShardName;
    PaddedHasNoSlash(file.layer);
    PaddedHasNoSlash(file.first);
    PaddedHasNoSlash(file.last);
    var stem := "layer-" + (Padded(file.layer) + ("-experts-" + (Padded(file.first) + ("-" + Padded(file.last)))));
    assert FileName(file) == stem + EXTENSION;
    PlainShardName(stem);
  }

  lemma {:induction false} PaddedHasNoSlash(n: nat)
    ensures '/' !in Padded(n)
  {
    DigitsHaveNoSlash(n, if DigitCount(n) < 5 then 5 else DigitCount(n));
  }

  function Names(files: seq<Shard>): (names: seq<string>)
    ensures |names| == |files|
  {
    seq(|files|, i requires 0 <= i < |files| => FileName(files[i]))
  }

  /** A directory listing: every name once, in order. */
  predicate Listing(names: seq<string>) {
    forall i, j | 0 <= i < j < |names| :: Precedes(names[i], names[j])
  }

  lemma {:induction false} AscendingNamesAreAListing(files: seq<Shard>)
    requires Ascending(files) && forall i | 0 <= i < |files| :: files[i].layer < 100000 && files[i].first < 100000
    ensures Listing(Names(files))
  {
    hide FileName;
    forall i, j | 0 <= i < j < |files|
      ensures Precedes(FileName(files[i]), FileName(files[j]))
    {
      NamesInOrder(files, i, j);
    }
  }

  lemma {:induction false} NamesInOrder(files: seq<Shard>, i: nat, j: nat)
    requires Ascending(files) && i < j < |files| && forall k | 0 <= k < |files| ::
             files[k].layer < 100000 && files[k].first < 100000
    ensures Precedes(FileName(files[i]), FileName(files[j]))
    decreases j
  {
    hide FileName;
    assert Before(files[j - 1], files[j]);
    NamesAscend(files[j - 1], files[j]);
    if i < j - 1 {
      NamesInOrder(files, i, j - 1);
      PrecedesIsTransitive(FileName(files[i]), FileName(files[j - 1]), FileName(files[j]));
    }
  }

  /**
   A directory holds exactly one listing of its names, so a manifest in listing order matches the store's inventory.
   */
  lemma {:induction false} ListingIsUnique(left: seq<string>, right: seq<string>)
    requires Listing(left) && Listing(right) && forall name :: name in left <==> name in right
    ensures left == right
    decreases |left| + |right|
  {
    if left != [] {
      assert left[0] in left;
    }
    if right != [] {
      assert right[0] in right;
    }
    if left != [] && right != [] {
      SameFirst(left, right);
      RestListing(left);
      RestListing(right);
      forall name
        ensures name in left[1..] <==> name in right[1..]
      {
        FirstIsGone(left);
        FirstIsGone(right);
        assert name in left <==> name == left[0] || name in left[1..];
        assert name in right <==> name == right[0] || name in right[1..];
      }
      ListingIsUnique(left[1..], right[1..]);
      assert left == [left[0]] + left[1..] && right == [right[0]] + right[1..];
    }
  }

  lemma {:induction false} RestListing(names: seq<string>)
    requires Listing(names) && names != []
    ensures Listing(names[1..])
  {
    forall i, j | 0 <= i < j < |names[1..]|
      ensures Precedes(names[1..][i], names[1..][j])
    {
      assert Precedes(names[i + 1], names[j + 1]);
    }
  }

  lemma {:induction false} FirstIsGone(names: seq<string>)
    requires Listing(names) && names != []
    ensures names[0] !in names[1..]
  {
    if names[0] in names[1..] {
      var i :| 0 <= i < |names[1..]| && names[1..][i] == names[0];
      assert Precedes(names[0], names[i + 1]);
      PrecedesIsStrict(names[0]);
    }
  }

  lemma {:induction false} SameFirst(left: seq<string>, right: seq<string>)
    requires Listing(left) && Listing(right) && left != [] && right != []
    requires left[0] in right && right[0] in left
    ensures left[0] == right[0]
  {
    var i :| 0 <= i < |right| && right[i] == left[0];
    var j :| 0 <= j < |left| && left[j] == right[0];
    if i > 0 && j > 0 {
      assert Precedes(right[0], right[i]) && Precedes(left[0], left[j]);
      PrecedesIsTransitive(left[0], right[0], left[0]);
      PrecedesIsStrict(left[0]);
    }
  }

  /** What a conversion wrote passes the validator's checks of the file list. */
  lemma {:induction false} ConvertedFilesAreAccepted(config: MoeLayerConfig, scalarType: PackedScalarType,
                                                     matrices: Matrices, layers: seq<nat>, options: Options,
                                                     files: seq<Shard>, store: seq<string>)
    requires config.Valid() && options.Valid(config.numExperts) &&
             Covers(config, scalarType, matrices, layers, options, files)
    requires layers != [] && IncreasingLayers(layers) && (forall layer | layer in layers :: layer < 100000) &&
             config.numExperts <= 100000
    requires Listing(store) && forall name :: name in store <==> name in Names(files)
    ensures |files| == |layers| * CeilDiv(config.numExperts, options.expertsPerFile)
    ensures store == Names(files) && FilesAccepted(Names(files))
  {
    SomeTiles(config.numExperts, options.expertsPerFile);
    CountNext(|layers| - 1, CeilDiv(config.numExperts, options.expertsPerFile));
    hide FileName, AllRecords, ShardRecords, CeilDiv, ShardName;
    AscendingNamesAreAListing(files);
    ListingIsUnique(store, Names(files));
    ListingRepeatsNothing(Names(files));
    forall i | 0 <= i < |files|
      ensures ShardName(Names(files)[i])
    {
      ConvertedNameIsShardName(files[i]);
    }
  }

  lemma {:induction false} SomeTiles(count: nat, size: nat)
    requires 0 < size <= count
    ensures CeilDiv(count, size) > 0
  {
    var whole := count + size - 1;
    assert whole == whole / size * size + whole % size;
  }

  lemma {:induction false} ListingRepeatsNothing(names: seq<string>)
    requires Listing(names)
    ensures forall i, j | 0 <= i < j < |names| :: names[i] != names[j]
  {
    forall i, j | 0 <= i < j < |names|
      ensures names[i] != names[j]
    {
      assert Precedes(names[i], names[j]);
      PrecedesIsStrict(names[i]);
    }
  }

  // ----- dense files -----

  function DenseName(index: nat): string {
    "dense-" + (Padded(index) + EXTENSION)
  }

  function DenseNames(count: nat): (names: seq<string>)
    ensures |names| == count
  {
    seq(count, i requires 0 <= i < count => DenseName(i))
  }

  /** A dense tensor as it is stored: its header and its bytes. */
  datatype DenseTensor = DenseTensor(header: seq<Byte>, data: seq<Byte>)

  /** One file for each dense tensor, copied exactly and within the buffer bound. */
  method ConvertDense(tensors: seq<DenseTensor>, maxBufferBytes: nat, peak: nat)
    returns (result: Result<seq<(string, seq<Byte>)>>, newPeak: nat)
    requires 0 < maxBufferBytes < U64 && forall tensor | tensor in tensors :: |tensor.data| < U64
    ensures result.Ok? <==> forall tensor | tensor in tensors :: |tensor.header| <= maxBufferBytes
    ensures result.Ok? ==> |result.value| == |tensors| && forall i | 0 <= i < |tensors| ::
              result.value[i] == (DenseName(i), tensors[i].header + tensors[i].data)
    ensures peak <= newPeak <= Max(peak, maxBufferBytes)
  {
    hide DenseName;
    newPeak := peak;
    var files: seq<(string, seq<Byte>)> := [];
    for i := 0 to |tensors|
      invariant |files| == i && forall j | 0 <= j < i :: files[j] == (DenseName(j), tensors[j].header + tensors[j].data)
      invariant forall j | 0 <= j < i :: |tensors[j].header| <= maxBufferBytes
      invariant peak <= newPeak <= Max(peak, maxBufferBytes)
    {
      var written;
      written, newPeak := WriteRawTensorStreaming(tensors[i].header, tensors[i].data, maxBufferBytes, newPeak);
      if written.Err? {
        return Err(written.error), newPeak;
      }
      files := files + [(DenseName(i), written.value)];
    }
    result := Ok(files);
  }

  /** The dense files pass the validator's checks as well. */
  lemma {:induction false} DenseFilesAreAccepted(count: nat, store: seq<string>)
    requires 0 < count <= 100000
    requires Listing(store) && forall name :: name in store <==> name in DenseNames(count)
    ensures store == DenseNames(count) && FilesAccepted(DenseNames(count))
  {
    hide Padded, ShardName;
    var names := DenseNames(count);
    forall i, j | 0 <= i < j < count
      ensures Precedes(names[i], names[j])
    {
      PaddedSorts(i, j);
      PrecedesWithSuffix(Padded(i), Padded(j), EXTENSION, EXTENSION);
      PrecedesAfterPrefix("dense-", Padded(i) + EXTENSION, Padded(j) + EXTENSION);
    }
    ListingIsUnique(store, names);
    ListingRepeatsNothing(names);
    forall i | 0 <= i < count
      ensures ShardName(names[i])
    {
      PaddedHasNoSlash(i);
      assert names[i] == ("dense-" + Padded(i)) + EXTENSION;
      PlainShardName("dense-" + Padded(i));
    }
  }

  // ----- the expert inventory -----

  type Inventory = map<(nat, nat), nat>

  /** The store's inventory of some records: the length of each, by layer and expert. */
  function InventoryOf(records: seq<Packed>): Inventory {
    if records == [] then map[]
    else
      var last := records[|records| - 1];
      InventoryOf(records[..|records| - 1])[(last.layer, last.expert) := |last.record|]
  }

  predicate InventoryComplete(inventory: Inventory, layers: seq<nat>, numExperts: nat, recordBytes: nat) {
    && |inventory| == |layers| * numExperts
    && forall i, expert | 0 <= i < |layers| && 0 <= expert < numExperts ::
       Holds(inventory, layers[i], expert, recordBytes)
  }

  predicate Holds(inventory: Inventory, layer: nat, expert: nat, recordBytes: nat) {
    (layer, expert) in inventory && inventory[(layer, expert)] == recordBytes
  }

  method ValidateExpertInventory(inventory: Inventory, layers: seq<nat>, numExperts: nat, recordBytes: nat)
    returns (result: Result<()>)
    requires forall layer | layer in layers :: layer < WORD
    ensures result.Ok? <==> InventoryComplete(inventory, layers, numExperts, recordBytes)
  {
    if |inventory| != |layers| * numExperts {
      return Err(InvalidConfig);
    }
    for i := 0 to |layers|
      invariant forall j, expert | 0 <= j < i && 0 <= expert < numExperts ::
                Holds(inventory, layers[j], expert, recordBytes)
    {
      for expert := 0 to numExperts
        invariant forall other | 0 <= other < expert :: Holds(inventory, layers[i], other, recordBytes)
      {
        if (layers[i], expert) !in inventory || inventory[(layers[i], expert)] != recordBytes {
          assert !Holds(inventory, layers[i], expert, recordBytes);
          return Err(InvalidConfig);
        }
      }
    }
    result := Ok(());
  }

  /** The records of distinct layers are exactly the inventory that the validator asks for. */
  lemma {:induction false} ConvertedInventoryIsComplete(config: MoeLayerConfig, scalarType: PackedScalarType,
                                                        matrices: Matrices, layers: seq<nat>, recordBytes: nat)
    requires IncreasingLayers(layers)
    requires forall layer | layer in layers ::
             RecordsMeasure(config, scalarType, matrices, layer, config.numExperts, recordBytes)
    ensures InventoryComplete(InventoryOf(AllRecords(config, scalarType, matrices, layers)), layers, config.numExperts,
                              recordBytes)
    ensures KeysWithin(InventoryOf(AllRecords(config, scalarType, matrices, layers)), layers)
    decreases layers
  {
    hide ExpertRecord, InventoryOf, RecordsOf, RecordsMeasure;
    if layers != [] {
      var last := |layers| - 1;
      var before, layer := layers[..last], layers[last];
      assert layers == before + [layer];
      IncreasingInit(before, layer);
      assert forall other | other in before :: other in layers;
      ConvertedInventoryIsComplete(config, scalarType, matrices, before, recordBytes);
      var records := AllRecords(config, scalarType, matrices, before);
      LayerInventory(config, scalarType, matrices, records, before, layer, config.numExperts, recordBytes);
      var whole := AllRecords(config, scalarType, matrices, layers);
      assert whole == records + RecordsOf(config, scalarType, matrices, layer, 0, config.numExperts);
      hide AllRecords, Extends, InventoryComplete, KeysWithin;
      CompleteNext(InventoryOf(records), InventoryOf(whole), before, layer, config.numExperts, recordBytes);
    } else {
      EmptyInventory();
    }
  }

  lemma {:induction false} EmptyInventory()
    ensures InventoryOf([]) == map[]
  {
  }

  predicate RecordsMeasure(config: MoeLayerConfig, scalarType: PackedScalarType, matrices: Matrices, layer: nat,
                           count: nat, recordBytes: nat)
  {
    forall expert | 0 <= expert < count ::
      |ExpertRecord(config, scalarType, matrices, layer, expert).record| == recordBytes
  }

  /** A layer that converts has records of one length: the header and three sections. */
  lemma {:induction false} ConvertedRecordsMeasure(platform: Platform, config: MoeLayerConfig,
                                                   scalarType: PackedScalarType, matrices: Matrices, size: nat,
                                                   layer: nat, options: Options)
    requires LayerConverts(platform, config, scalarType, matrices, size, layer, options)
    ensures RecordsMeasure(config, scalarType, matrices, layer, config.numExperts, 3 * size + HEADER_BYTES)
  {
    hide Encodable, Encoded;
    forall expert | 0 <= expert < config.numExperts
      ensures |ExpertRecord(config, scalarType, matrices, layer, expert).record| == 3 * size + HEADER_BYTES
    {
      assert ExpertEncodable(platform, config, scalarType, matrices(layer, expert), size);
      EncodedLength(config, scalarType, matrices(layer, expert));
    }
  }

  predicate KeysWithin(inventory: Inventory, layers: seq<nat>) {
    forall key | key in inventory :: key.0 in layers
  }

  /** An inventory with entries for the first `count` experts of a layer added. */
  predicate Extends(base: Inventory, inventory: Inventory, layer: nat, count: nat, recordBytes: nat) {
    && |inventory| == |base| + count
    && (forall key | key in base :: key in inventory && inventory[key] == base[key])
    && (forall expert | 0 <= expert < count :: Holds(inventory, layer, expert, recordBytes))
    && (forall key | key in inventory :: key in base || (key.0 == layer && key.1 < count))
  }

  lemma {:induction false} ExtendsNext(base: Inventory, inventory: Inventory, before: seq<nat>, layer: nat, count: nat,
                                       recordBytes: nat)
    requires KeysWithin(base, before) && layer !in before && Extends(base, inventory, layer, count, recordBytes)
    ensures Extends(base, inventory[(layer, count) := recordBytes], layer, count + 1, recordBytes)
  {
    var key, next := (layer, count), inventory[(layer, count) := recordBytes];
    assert key in base ==> key.0 in before;
    InventoryGrows(inventory, key, recordBytes);
    forall expert | 0 <= expert < count + 1
      ensures Holds(next, layer, expert, recordBytes)
    {
      if expert < count {
        assert Holds(inventory, layer, expert, recordBytes);
        assert (layer, expert) != key;
      }
    }
    forall other | other in base
      ensures other in next && next[other] == base[other]
    {
      assert other != key;
    }
    forall other | other in next
      ensures other in base || (other.0 == layer && other.1 < count + 1)
    {
      assert other != key ==> other in inventory;
    }
  }

  lemma {:induction false} InventoryGrows(inventory: Inventory, key: (nat, nat), length: nat)
    requires key !in inventory
    ensures |inventory[key := length]| == |inventory| + 1
  {
    assert inventory[key := length].Keys == inventory.Keys + {key};
    assert |inventory[key := length]| == |inventory[key := length].Keys| && |inventory| == |inventory.Keys|;
  }

  /** Adding the first `count` records of a new layer adds exactly their entries. */
  lemma {:induction false} LayerInventory(config: MoeLayerConfig, scalarType: PackedScalarType, matrices: Matrices,
                                          records: seq<Packed>, before: seq<nat>, layer: nat, count: nat,
                                          recordBytes: nat)
    requires KeysWithin(InventoryOf(records), before) && layer !in before
    requires RecordsMeasure(config, scalarType, matrices, layer, count, recordBytes)
    ensures Extends(InventoryOf(records),
                    InventoryOf(records + RecordsOf(config, scalarType, matrices, layer, 0, count)), layer, count,
                    recordBytes)
    decreases count
  {
    hide InventoryOf, RecordsOf, KeysWithin, ExpertRecord, RecordsMeasure, Extends;
    if count == 0 {
      NoRecords(config, scalarType, matrices, layer);
      assert records + [] == records;
      NothingAdded(InventoryOf(records), layer, recordBytes);
    } else {
      var record := ExpertRecord(config, scalarType, matrices, layer, count - 1);
      LastMeasures(config, scalarType, matrices, layer, count, recordBytes);
      LayerInventory(config, scalarType, matrices, records, before, layer, count - 1, recordBytes);
      RecordsOfNext(config, scalarType, matrices, layer, 0, count - 1);
      var shorter := records + RecordsOf(config, scalarType, matrices, layer, 0, count - 1);
      assert records + RecordsOf(config, scalarType, matrices, layer, 0, count) == shorter + [record];
      InventoryNext(shorter, record);
      ExtendsNext(InventoryOf(records), InventoryOf(shorter), before, layer, count - 1, recordBytes);
    }
  }

  lemma {:induction false} NothingAdded(base: Inventory, layer: nat, recordBytes: nat)
    ensures Extends(base, base, layer, 0, recordBytes)
  {
  }

  lemma {:induction false} LastMeasures(config: MoeLayerConfig, scalarType: PackedScalarType, matrices: Matrices,
                                        layer: nat, count: nat, recordBytes: nat)
    requires count > 0 && RecordsMeasure(config, scalarType, matrices, layer, count, recordBytes)
    ensures RecordsMeasure(config, scalarType, matrices, layer, count - 1, recordBytes)
    ensures var record := ExpertRecord(config, scalarType, matrices, layer, count - 1);
            record.layer == layer && record.expert == count - 1 && |record.record| == recordBytes
  {
    hide Encoded;
  }

  /** A complete inventory stays complete when a new layer is added. */
  lemma {:induction false} CompleteNext(base: Inventory, inventory: Inventory, before: seq<nat>, layer: nat,
                                        numExperts: nat, recordBytes: nat)
    requires InventoryComplete(base, before, numExperts, recordBytes) && KeysWithin(base, before)
    requires Extends(base, inventory, layer, numExperts, recordBytes)
    ensures InventoryComplete(inventory, before + [layer], numExperts, recordBytes) &&
            KeysWithin(inventory, before + [layer])
  {
    var layers := before + [layer];
    CountNext(|before|, numExperts);
    forall i, expert | 0 <= i < |layers| && 0 <= expert < numExperts
      ensures Holds(inventory, layers[i], expert, recordBytes)
    {
      if i < |before| {
        assert Holds(base, before[i], expert, recordBytes);
      }
    }
    forall key | key in inventory
      ensures key.0 in layers
    {
      assert layers[|before|] == layer;
    }
  }

  lemma {:induction false} NoRecords(config: MoeLayerConfig, scalarType: PackedScalarType, matrices: Matrices,
                                     layer: nat)
    ensures RecordsOf(config, scalarType, matrices, layer, 0, 0) == []
  {
  }

  lemma {:induction false} InventoryNext(records: seq<Packed>, record: Packed)
    ensures InventoryOf(records + [record]) == InventoryOf(records)[(record.layer, record.expert) := |record.record|]
    ensures (record.layer, record.expert) !in InventoryOf(records) ==>
            |InventoryOf(records + [record])| == |InventoryOf(records)| + 1
  {
    assert (records + [record])[..|records|] == records;
    var before, key := InventoryOf(records), (record.layer, record.expert);
    if key !in before {
      InventoryGrows(before, key, |record.record|);
    }
  }

  // ----- a conversion and the validator -----

  /** What the validator asks of the expert files: their list, the store's inventory of files, and that of tensors. */
  predicate ExpertsAccepted(config: MoeLayerConfig, layers: seq<nat>, options: Options, files: seq<Shard>,
                            store: seq<string>, recordBytes: nat)
    requires options.Valid(config.numExperts)
  {
    && FilesAccepted(Names(files))
    && |files| == |layers| * CeilDiv(config.numExperts, options.expertsPerFile)
    && store == Names(files)
    && (forall layer | layer in layers :: layer < WORD)
    && InventoryComplete(InventoryOf(ShardRecords(files)), layers, config.numExperts, recordBytes)
  }

  lemma {:induction false} ConversionIsAccepted(platform: Platform, config: MoeLayerConfig,
                                                scalarType: PackedScalarType, matrices: Matrices, size: nat,
                                                layers: seq<nat>, options: Options, files: seq<Shard>,
                                                store: seq<string>)
    requires config.Valid() && options.Valid(config.numExperts) &&
             Covers(config, scalarType, matrices, layers, options, files)
    requires forall layer | layer in layers ::
             LayerConverts(platform, config, scalarType, matrices, size, layer, options)
    requires layers != [] && IncreasingLayers(layers) && (forall layer | layer in layers :: layer < 100000) &&
             config.numExperts <= 100000
    requires Listing(store) && forall name :: name in store <==> name in Names(files)
    ensures ExpertsAccepted(config, layers, options, files, store, 3 * size + HEADER_BYTES)
  {
    hide RecordsMeasure, FilesAccepted, Listing, IncreasingLayers, InventoryComplete, InventoryOf;
    ConvertedFilesAreAccepted(config, scalarType, matrices, layers, options, files, store);
    forall layer | layer in layers
      ensures RecordsMeasure(config, scalarType, matrices, layer, config.numExperts, 3 * size + HEADER_BYTES)
    {
      ConvertedRecordsMeasure(platform, config, scalarType, matrices, size, layer, options);
    }
    ConvertedInventoryIsComplete(config, scalarType, matrices, layers, 3 * size + HEADER_BYTES);
  }

  /**
   Whenever fused conversion succeeds, the validator accepts what it wrote, with the record length it computes itself.
   */
  lemma {:induction false} FusedConversionIsAccepted(platform: Platform, source: map<TensorName, Tensor>,
                                                     layers: seq<nat>, config: MoeLayerConfig, options: Options,
                                                     converted: Converted, store: seq<string>)
    requires options.Valid(config.numExperts) && FusedConverts(platform, source, layers, config, options)
    requires source[FusedGateUp(layers[0])].scalarType == Some(converted.scalarType)
    requires var size := MatrixSize(config, converted.scalarType);
             Covers(config, converted.scalarType, FusedMatrices(source, size), layers, options, converted.files)
    requires IncreasingLayers(layers) && (forall layer | layer in layers :: layer < 100000) &&
             config.numExperts <= 100000
    requires Listing(store) && forall name :: name in store <==> name in Names(converted.files)
    ensures ExpertsAccepted(config, layers, options, converted.files, store,
                            3 * MatrixSize(config, converted.scalarType) + HEADER_BYTES)
  {
    hide Covers, LayerConverts, IncreasingLayers, Listing, ExpertsAccepted, FusedMatrices;
    var size := MatrixSize(config, converted.scalarType);
    assert MatrixBytes(platform, config.intermediateSize, config.hiddenSize, converted.scalarType) == Some(size);
    forall layer | layer in layers
      ensures LayerConverts(platform, config, converted.scalarType, FusedMatrices(source, size), size, layer, options)
    {
      var i :| 0 <= i < |layers| && layers[i] == layer;
      assert FusedLayerConverts(platform, source, config, converted.scalarType, size, options, layers[i]);
    }
    ConversionIsAccepted(platform, config, converted.scalarType, FusedMatrices(source, size), size, layers, options,
                         converted.files, store);
  }

  /** The same for split conversion, whose layers are the sparse ones in order. */
  lemma {:induction false} SplitConversionIsAccepted(platform: Platform, source: map<TensorName, Tensor>,
                                                     layerCount: nat, isSparse: nat -> bool, config: MoeLayerConfig,
                                                     options: Options, converted: Converted, store: seq<string>)
    requires options.Valid(config.numExperts) &&
             SplitConverts(platform, source, SparseLayers(layerCount, isSparse), config, options)
    requires FirstScalar(source, SparseLayers(layerCount, isSparse)) == Some(converted.scalarType)
    requires Covers(config, converted.scalarType, SplitMatrices(source, config, converted.scalarType),
                    SparseLayers(layerCount, isSparse), options,
                    converted.files)
    requires layerCount <= 100000 && config.numExperts <= 100000
    requires Listing(store) && forall name :: name in store <==> name in Names(converted.files)
    ensures ExpertsAccepted(config, SparseLayers(layerCount, isSparse), options, converted.files, store,
                            3 * MatrixSize(config, converted.scalarType) + HEADER_BYTES)
  {
    hide Covers, LayerConverts, IncreasingLayers, Listing, ExpertsAccepted, SplitMatrices, FirstScalar, MatrixSize,
         SparseLayers;
    var layers, size := SparseLayers(layerCount, isSparse), MatrixSize(config, converted.scalarType);
    SparseLayersIncrease(layerCount, isSparse);
    forall layer | layer in layers
      ensures LayerConverts(platform, config, converted.scalarType,
                            SplitMatrices(source, config, converted.scalarType), size, layer, options)
    {
      var i :| 0 <= i < |layers| && layers[i] == layer;
    }
    ConversionIsAccepted(platform, config, converted.scalarType, SplitMatrices(source, config, converted.scalarType),
                         size, layers, options,
                         converted.files, store);
  }
}

/** Writing GGUF headers, and what the inspection finds in a written header. */
module GgufFormat {
  import opened Basics
  import opened GgufInspection

  /** A metadata value of one of the types of the GGUF specification, "File Structure". Signed and
      floating-point values are given by their bits. */
  datatype Metadatum =
    | Uint8(n: nat) | Int8(bits8: nat) | Uint16(n: nat) | Int16(bits16: nat) | Uint32(n: nat) | Int32(bits32: nat)
    | Float32(bitsF32: nat) | Bool(on: bool) | Text(raw: Bytes) | Array(itemKind: nat, items: seq<Metadatum>)
    | Uint64(n: nat) | Int64(bits64: nat) | Float64(bitsF64: nat)
  datatype Pair = Pair(key: Bytes, value: Metadatum)
  datatype Tensor = Tensor(name: Bytes, dimensions: seq<nat>, kind: nat, offset: nat)
  datatype Header = Header(version: nat, metadata: seq<Pair>, tensors: seq<Tensor>)

  /** The number of a value's type. */
  function KindOf(v: Metadatum): nat {
    match v
    case Uint8(_) => 0
    case Int8(_) => 1
    case Uint16(_) => 2
    case Int16(_) => 3
    case Uint32(_) => 4
    case Int32(_) => 5
    case Float32(_) => 6
    case Bool(_) => 7
    case Text(_) => 8
    case Array(_, _) => 9
    case Uint64(_) => 10
    case Int64(_) => 11
    case Float64(_) => 12
  }

  /** The items of every array are of the type it states. */
  predicate Typed(v: Metadatum) {
    match v
    case Array(itemKind, items) =>
      itemKind < Power256(4) && forall item | item in items :: Typed(item) && KindOf(item) == itemKind
    case _ => true
  }

  /** No array has more than a million items. */
  predicate Small(v: Metadatum) {
    match v
    case Array(_, items) => |items| <= 1_000_000 && forall item | item in items :: Small(item)
    case _ => true
  }

  /** How many calls of the skipping function are open at once while it skips a value. */
  function Depth(v: Metadatum): nat
    decreases v
  {
    match v
    case Array(itemKind, items) => if itemKind == 8 || itemKind == 9 then 1 + ItemsDepth(items) else 1
    case _ => 1
  }

  function ItemsDepth(items: seq<Metadatum>): nat
    decreases items
  {
    if items == [] then 0 else Max(Depth(items[0]), ItemsDepth(items[1..]))
  }

  /** A header that can be written: its numbers fit the fields they are written to. */
  predicate HeaderOk(h: Header) {
    && h.version < Power256(4)
    && |h.metadata| <= 9_007_199_254_740_991 && |h.tensors| <= 9_007_199_254_740_991
    && (forall p | p in h.metadata :: Typed(p.value))
    && forall t | t in h.tensors :: |t.dimensions| < Power256(4)
  }

  function PrintText(b: Bytes): Bytes {
    LittleEndian(|b|, 8) + b
  }

  function PrintMetadatum(v: Metadatum): Bytes
    decreases v
  {
    match v
    case Uint8(n) => LittleEndian(n, 1)
    case Int8(bits) => LittleEndian(bits, 1)
    case Uint16(n) => LittleEndian(n, 2)
    case Int16(bits) => LittleEndian(bits, 2)
    case Uint32(n) => LittleEndian(n, 4)
    case Int32(bits) => LittleEndian(bits, 4)
    case Float32(bits) => LittleEndian(bits, 4)
    case Bool(on) => [if on then 1 else 0]
    case Text(raw) => PrintText(raw)
    case Array(itemKind, items) => LittleEndian(itemKind, 4) + (LittleEndian(|items|, 8) + PrintItems(items))
    case Uint64(n) => LittleEndian(n, 8)
    case Int64(bits) => LittleEndian(bits, 8)
    case Float64(bits) => LittleEndian(bits, 8)
  }

  function PrintItems(items: seq<Metadatum>): Bytes
    decreases items
  {
    if items == [] then [] else PrintMetadatum(items[0]) + PrintItems(items[1..])
  }

  function PrintPair(p: Pair): Bytes {
    PrintText(p.key) + (LittleEndian(KindOf(p.value), 4) + PrintMetadatum(p.value))
  }

  function PrintPairs(pairs: seq<Pair>): Bytes {
    if pairs == [] then [] else PrintPair(pairs[0]) + PrintPairs(pairs[1..])
  }

  function PrintNumbers(numbers: seq<nat>): (b: Bytes)
    ensures |b| == |numbers| * 8
  {
    if numbers == [] then [] else LittleEndian(numbers[0], 8) + PrintNumbers(numbers[1..])
  }

  function PrintPlacement(t: Tensor): (b: Bytes)
    ensures |b| == 12
  {
    LittleEndian(t.kind, 4) + LittleEndian(t.offset, 8)
  }

  function PrintTensor(t: Tensor): Bytes {
    PrintText(t.name) + (LittleEndian(|t.dimensions|, 4) + (PrintNumbers(t.dimensions) + PrintPlacement(t)))
  }

  function PrintTensors(tensors: seq<Tensor>): Bytes {
    if tensors == [] then [] else PrintTensor(tensors[0]) + PrintTensors(tensors[1..])
  }

  /** The letters GGUF. */
  const LETTERS: Bytes := [0x47, 0x47, 0x55, 0x46]

  function PrintHeader(h: Header): Bytes {
    LETTERS + (LittleEndian(h.version, 4) + (LittleEndian(|h.tensors|, 8) + (LittleEndian(|h.metadata|, 8)
    + (PrintPairs(h.metadata) + PrintTensors(h.tensors)))))
  }

  // ----- reading back -----

  /** The bytes stand in the file at a position, within the part that is inspected. */
  predicate At(file: Bytes, pos: nat, b: Bytes) {
    Reachable(file, pos + |b|) && file[pos..pos + |b|] == b
  }

  lemma AtSplit(file: Bytes, pos: nat, a: Bytes, b: Bytes)
    requires At(file, pos, a + b)
    ensures At(file, pos, a) && At(file, pos + |a|, b)
  {
    var whole := file[pos..pos + |a + b|];
    assert whole[..|a|] == a && whole[|a|..] == b;
    assert file[pos..pos + |a|] == whole[..|a|];
    assert file[pos + |a|..pos + |a| + |b|] == whole[|a|..];
  }

  lemma Powers()
    ensures Power256(4) == 0x1_0000_0000 && Power256(8) == 0x1_0000_0000_0000_0000
  {
    assert Power256(1) == 256 && Power256(2) == 256 * Power256(1) && Power256(3) == 256 * Power256(2);
    assert Power256(4) == 256 * Power256(3) && Power256(5) == 256 * Power256(4) && Power256(6) == 256 * Power256(5);
    assert Power256(7) == 256 * Power256(6) && Power256(8) == 256 * Power256(7);
  }

  lemma ReadsNumber(file: Bytes, pos: nat, n: nat, width: nat)
    requires At(file, pos, LittleEndian(n, width)) && n < Power256(width)
    ensures Number(file, pos, width) == Some(Read(n, pos + width))
  {
    NumberRoundTrip(n, width);
  }

  lemma ReadsCount(file: Bytes, pos: nat, n: nat)
    requires At(file, pos, LittleEndian(n, 8)) && n <= MAX_SAFE_INTEGER
    ensures Count(file, pos) == Some(Read(n, pos + 8))
  {
    Powers();
    ReadsNumber(file, pos, n, 8);
  }

  lemma ReadsText(file: Bytes, pos: nat, b: Bytes)
    requires At(file, pos, PrintText(b))
    ensures Count(file, pos) == Some(Read(|b|, pos + 8)) && At(file, pos + 8, b)
    ensures Advance(file, pos + 8, |b|) == Some(pos + 8 + |b|) && SkipString(file, pos) == Some(pos + |PrintText(b)|)
  {
    AtSplit(file, pos, LittleEndian(|b|, 8), b);
    ReadsCount(file, pos, |b|);
  }

  lemma {:induction false} FixedItemsSize(items: seq<Metadatum>, kind: nat)
    requires FixedBytes(kind) > 0 && forall item | item in items :: KindOf(item) == kind
    ensures |PrintItems(items)| == |items| * FixedBytes(kind)
  {
    if items != [] {
      assert items[0] in items;
      FixedItemsSize(items[1..], kind);
    }
  }

  lemma {:induction false} ItemsTakeRoom(items: seq<Metadatum>)
    ensures |items| <= |PrintItems(items)|
  {
    if items != [] {
      ItemsTakeRoom(items[1..]);
    }
  }

  predicate AllSmall(items: seq<Metadatum>) {
    forall item | item in items :: Small(item)
  }

  /** The item kind and the number of items stand before the items of an array. */
  lemma ReadsArray(file: Bytes, pos: nat, itemKind: nat, items: seq<Metadatum>)
    requires At(file, pos, PrintMetadatum(Array(itemKind, items))) && itemKind < Power256(4)
    ensures U32(file, pos) == Some(Read(itemKind, pos + 4)) && Count(file, pos + 4) == Some(Read(|items|, pos + 12))
    ensures |PrintMetadatum(Array(itemKind, items))| == 12 + |PrintItems(items)| && At(file, pos + 12, PrintItems(items))
  {
    AtSplit(file, pos, LittleEndian(itemKind, 4), LittleEndian(|items|, 8) + PrintItems(items));
    AtSplit(file, pos + 4, LittleEndian(|items|, 8), PrintItems(items));
    ReadsNumber(file, pos, itemKind, 4);
    ItemsTakeRoom(items);
    ReadsCount(file, pos + 4, |items|);
  }

  /** A written value is skipped exactly when it is not nested deeper than the call stack allows
      and no array in it is too long. */
  lemma {:induction false} SkipsMetadatum(file: Bytes, pos: nat, v: Metadatum, room: nat)
    requires At(file, pos, PrintMetadatum(v)) && Typed(v)
    ensures SkipValue(file, pos, KindOf(v), room) ==
            if Depth(v) <= room && Small(v) then Some(pos + |PrintMetadatum(v)|) else None
    decreases v
  {
    hide U32;
    hide Count;
    hide LittleEndian;
    hide PrintItems;
    hide ItemsDepth;
    hide SkipString;
    hide PrintText;
    match v
    case Text(raw) => ReadsText(file, pos, raw);
    case Array(itemKind, items) =>
      ReadsArray(file, pos, itemKind, items);
      assert Small(v) <==> |items| <= 1_000_000 && AllSmall(items);
      if FixedBytes(itemKind) > 0 {
        FixedItemsSize(items, itemKind);
        FixedItemsSmall(items, itemKind);
      } else {
        NoSuchItems(items, itemKind);
        if room > 0 {
          SkipsItems(file, pos + 12, items, itemKind, room - 1);
        }
      }
    case _ =>
  }

  lemma FixedItemsSmall(items: seq<Metadatum>, kind: nat)
    requires FixedBytes(kind) > 0 && forall item | item in items :: KindOf(item) == kind
    ensures AllSmall(items)
  {
  }

  /** Items that are of no fixed size are strings or arrays; there are none of any other type. */
  lemma NoSuchItems(items: seq<Metadatum>, kind: nat)
    requires FixedBytes(kind) == 0 && forall item | item in items :: KindOf(item) == kind
    ensures items == [] || kind == 8 || kind == 9
    ensures items == [] ==> ItemsDepth(items) == 0
  {
    if items != [] {
      assert items[0] in items;
    }
  }

  lemma {:induction false} SkipsItems(file: Bytes, pos: nat, items: seq<Metadatum>, kind: nat, room: nat)
    requires At(file, pos, PrintItems(items))
    requires forall item | item in items :: Typed(item) && KindOf(item) == kind
    ensures SkipItems(file, pos, kind, |items|, room) ==
            if ItemsDepth(items) <= room && AllSmall(items) then Some(pos + |PrintItems(items)|) else None
    decreases items
  {
    hide Typed;
    hide Small;
    hide KindOf;
    hide PrintMetadatum;
    hide SkipValue;
    hide Depth;
    if items != [] {
      assert items == [items[0]] + items[1..];
      AtSplit(file, pos, PrintMetadatum(items[0]), PrintItems(items[1..]));
      SkipsMetadatum(file, pos, items[0], room);
      SkipsItems(file, pos + |PrintMetadatum(items[0])|, items[1..], kind, room);
      assert AllSmall(items) <==> Small(items[0]) && AllSmall(items[1..]);
    }
  }

  lemma SkipsPair(file: Bytes, pos: nat, p: Pair, room: nat)
    requires At(file, pos, PrintPair(p)) && Typed(p.value)
    ensures SkipPair(file, pos, room) ==
            if Depth(p.value) <= room && Small(p.value) then Some(pos + |PrintPair(p)|) else None
  {
    hide Depth;
    hide PrintMetadatum;
    hide KindOf;
    hide LittleEndian;
    hide Value;
    hide SkipValue;
    hide Typed;
    hide Small;
    var key, value := PrintText(p.key), PrintMetadatum(p.value);
    AtSplit(file, pos, key, LittleEndian(KindOf(p.value), 4) + value);
    AtSplit(file, pos + |key|, LittleEndian(KindOf(p.value), 4), value);
    ReadsText(file, pos, p.key);
    KindFits(p.value);
    ReadsNumber(file, pos + |key|, KindOf(p.value), 4);
    SkipsMetadatum(file, pos + |key| + 4, p.value, room);
  }

  /** Every metadata value can be skipped. */
  predicate Skippable(pairs: seq<Pair>, room: nat) {
    forall p | p in pairs :: Depth(p.value) <= room && Small(p.value)
  }

  lemma {:induction false} SkipsPairs(file: Bytes, pos: nat, pairs: seq<Pair>, room: nat)
    requires At(file, pos, PrintPairs(pairs)) && forall p | p in pairs :: Typed(p.value)
    ensures SkipMetadata(file, pos, |pairs|, room) ==
            if Skippable(pairs, room) then Some(pos + |PrintPairs(pairs)|) else None
    decreases pairs
  {
    hide SkipPair;
    hide PrintPair;
    hide Typed;
    hide Small;
    hide Depth;
    if pairs != [] {
      assert pairs == [pairs[0]] + pairs[1..];
      AtSplit(file, pos, PrintPair(pairs[0]), PrintPairs(pairs[1..]));
      SkipsPair(file, pos, pairs[0], room);
      SkipsPairs(file, pos + |PrintPair(pairs[0])|, pairs[1..], room);
      assert Skippable(pairs, room) <==>
             Depth(pairs[0].value) <= room && Small(pairs[0].value) && Skippable(pairs[1..], room);
    }
  }

  lemma KindFits(v: Metadatum)
    ensures KindOf(v) < Power256(4)
  {
    Powers();
  }

  lemma ReadsTensor(file: Bytes, pos: nat, t: Tensor)
    requires At(file, pos, PrintTensor(t)) && |t.dimensions| < Power256(4)
    ensures ReadTensor(file, pos) ==
            if |t.dimensions| <= 16 then Some(TensorRead(t.name, pos + |PrintTensor(t)|)) else None
  {
    hide Number;
    hide PrintPlacement;
    hide PrintNumbers;
    var name, sizes, placement := PrintText(t.name), PrintNumbers(t.dimensions), PrintPlacement(t);
    AtSplit(file, pos, name, LittleEndian(|t.dimensions|, 4) + (sizes + placement));
    AtSplit(file, pos + |name|, LittleEndian(|t.dimensions|, 4), sizes + placement);
    AtSplit(file, pos + |name| + 4, sizes, placement);
    ReadsText(file, pos, t.name);
    ReadsNumber(file, pos + |name|, |t.dimensions|, 4);
  }

  /** Some tensor has a matching name, and up to it none has more than sixteen dimensions. */
  predicate Findable(tensors: seq<Tensor>, matches: Bytes -> bool) {
    exists k :: 0 <= k < |tensors| && matches(tensors[k].name)
                && forall j :: 0 <= j <= k ==> |tensors[j].dimensions| <= 16
  }

  lemma FindableStep(tensors: seq<Tensor>, matches: Bytes -> bool)
    requires tensors != []
    ensures Findable(tensors, matches) <==>
            |tensors[0].dimensions| <= 16 && (matches(tensors[0].name) || Findable(tensors[1..], matches))
  {
    var rest := tensors[1..];
    assert forall j :: 0 <= j < |rest| ==> rest[j] == tensors[j + 1];
    if Findable(tensors, matches) {
      var k :| 0 <= k < |tensors| && matches(tensors[k].name)
               && forall j :: 0 <= j <= k ==> |tensors[j].dimensions| <= 16;
      if k > 0 {
        assert matches(rest[k - 1].name);
      }
    }
    if |tensors[0].dimensions| <= 16 && Findable(rest, matches) {
      var k :| 0 <= k < |rest| && matches(rest[k].name) && forall j :: 0 <= j <= k ==> |rest[j].dimensions| <= 16;
      forall j | 0 <= j <= k + 1
        ensures |tensors[j].dimensions| <= 16
      {
        assert j > 0 ==> tensors[j] == rest[j - 1];
      }
      assert matches(tensors[k + 1].name);
    }
  }

  lemma {:induction false} FindsTensors(file: Bytes, pos: nat, tensors: seq<Tensor>, matches: Bytes -> bool)
    requires At(file, pos, PrintTensors(tensors)) && forall t | t in tensors :: |t.dimensions| < Power256(4)
    ensures FindTensor(file, pos, |tensors|, matches) <==> Findable(tensors, matches)
    decreases tensors
  {
    hide ReadTensor;
    hide PrintTensor;
    hide Findable;
    if tensors != [] {
      var t := tensors[0];
      assert t in tensors && tensors == [t] + tensors[1..];
      FindableStep(tensors, matches);
      AtSplit(file, pos, PrintTensor(t), PrintTensors(tensors[1..]));
      ReadsTensor(file, pos, t);
      FindsTensors(file, pos + |PrintTensor(t)|, tensors[1..], matches);
    } else {
      NothingFindable(matches);
    }
  }

  lemma NothingFindable(matches: Bytes -> bool)
    ensures !Findable([], matches)
  {
  }

  lemma HeaderParts(file: Bytes, h: Header)
    requires At(file, 0, PrintHeader(h))
    ensures At(file, 0, LETTERS) && At(file, 4, LittleEndian(h.version, 4))
    ensures At(file, 8, LittleEndian(|h.tensors|, 8)) && At(file, 16, LittleEndian(|h.metadata|, 8))
    ensures At(file, 24, PrintPairs(h.metadata)) && At(file, 24 + |PrintPairs(h.metadata)|, PrintTensors(h.tensors))
  {
    hide At;
    hide PrintPairs;
    hide PrintTensors;
    hide LittleEndian;
    var pairs, tensors := PrintPairs(h.metadata), PrintTensors(h.tensors);
    var metadata := LittleEndian(|h.metadata|, 8) + (pairs + tensors);
    var counts := LittleEndian(|h.tensors|, 8) + metadata;
    AtSplit(file, 0, LETTERS, LittleEndian(h.version, 4) + counts);
    AtSplit(file, 4, LittleEndian(h.version, 4), counts);
    AtSplit(file, 8, LittleEndian(|h.tensors|, 8), metadata);
    AtSplit(file, 16, LittleEndian(|h.metadata|, 8), pairs + tensors);
    AtSplit(file, 24, pairs, tensors);
  }

  predicate CountsOk(h: Header) {
    2 <= h.version <= 3 && |h.metadata| <= 1_000_000 && |h.tensors| <= 1_000_000
  }

  lemma ReadsHeader(file: Bytes, h: Header, room: nat, matches: Bytes -> bool)
    requires At(file, 0, PrintHeader(h)) && HeaderOk(h)
    ensures HasTensor(file, room, matches) <==>
            CountsOk(h) && Skippable(h.metadata, room) && Findable(h.tensors, matches)
  {
    hide Number;
    hide SkipMetadata;
    hide FindTensor;
    hide PrintPairs;
    hide PrintTensors;
    hide LittleEndian;
    hide PrintHeader;
    hide Skippable;
    hide Findable;
    hide Typed;
    HeaderParts(file, h);
    ReadsNumber(file, 4, h.version, 4);
    ReadsCount(file, 8, |h.tensors|);
    ReadsCount(file, 16, |h.metadata|);
    SkipsPairs(file, 24, h.metadata, room);
    FindsTensors(file, 24 + |PrintPairs(h.metadata)|, h.tensors, matches);
    MagicAt(file);
  }

  lemma MagicAt(file: Bytes)
    requires At(file, 0, LETTERS)
    ensures Reachable(file, 4) && file[..4] == MAGIC
  {
    assert file[..4] == file[0..4];
  }

  /** Whatever follows a written header in the file, the inspection answers whether some tensor of
      the header has a matching name, provided that the header is of version 2 or 3, lists no more
      than a million values and tensors, no value is nested deeper than the call stack allows or
      holds a longer array, and no tensor up to that one has more than sixteen dimensions.
      Otherwise it answers that there is none. */
  lemma FindsExactly(h: Header, data: Bytes, room: nat, matches: Bytes -> bool)
    requires HeaderOk(h) && |PrintHeader(h)| <= 64 * 1024 * 1024
    ensures HasTensor(PrintHeader(h) + data, room, matches) <==>
            && 2 <= h.version <= 3 && |h.metadata| <= 1_000_000 && |h.tensors| <= 1_000_000
            && (forall p | p in h.metadata :: Depth(p.value) <= room && Small(p.value))
            && exists k :: 0 <= k < |h.tensors| && matches(h.tensors[k].name)
                           && forall j :: 0 <= j <= k ==> |h.tensors[j].dimensions| <= 16
  {
    hide PrintHeader;
    hide HasTensor;
    hide HeaderOk;
    var file := PrintHeader(h) + data;
    assert file[0..|PrintHeader(h)|] == PrintHeader(h);
    ReadsHeader(file, h, room, matches);
  }
}

/** Looking for a tensor in a GGUF header (GGUF specification, "File Structure"). */
module GgufInspection {
  import opened Basics

  type Byte = x: int | 0 <= x < 256
  type Bytes = seq<Byte>

  const MAX_HEADER_BYTES := 64 * 1024 * 1024
  const MAX_COLLECTION_ITEMS := 1_000_000
  const READ_BUFFER_BYTES := 1024 * 1024
  const MAX_SAFE_INTEGER := 9_007_199_254_740_991
  const MAGIC: Bytes := [0x47, 0x47, 0x55, 0x46]

  // ----- numbers -----

  function Value(b: Bytes): nat {
    if b == [] then 0 else b[0] + 256 * Value(b[1..])
  }

  function LittleEndian(n: nat, width: nat): (b: Bytes)
    ensures |b| == width
  {
    if width == 0 then [] else [n % 256] + LittleEndian(n / 256, width - 1)
  }

  function Power256(k: nat): nat {
    if k == 0 then 1 else 256 * Power256(k - 1)
  }

  lemma {:induction false} NumberRoundTrip(n: nat, width: nat)
    requires n < Power256(width)
    ensures Value(LittleEndian(n, width)) == n
  {
    if width > 0 {
      NumberRoundTrip(n / 256, width - 1);
      assert LittleEndian(n, width)[1..] == LittleEndian(n / 256, width - 1);
    }
  }

  /** A byte further up counts for the power of its position. */
  lemma {:induction false} HighBytesLast(b: Bytes, x: Byte)
    ensures Value(b + [x]) == Value(b) + x * Power256(|b|)
  {
    if b == [] {
      var one: Bytes := [x];
      assert [] + one == one && one[1..] == [];
      assert Value(one) == x + 256 * Value([]);
    } else {
      assert (b + [x])[0] == b[0] && (b + [x])[1..] == b[1..] + [x];
      HighBytesLast(b[1..], x);
      assert 256 * (x * Power256(|b| - 1)) == x * Power256(|b|);
    }
  }

  // ----- the unbuffered reader: a position in the file, None where the source throws -----

  predicate Reachable(file: Bytes, pos: int) {
    0 <= pos <= |file| && pos <= MAX_HEADER_BYTES
  }

  function Advance(file: Bytes, pos: nat, length: nat): Option<nat> {
    if Reachable(file, pos + length) then Some(pos + length) else None
  }

  /** The bytes read at a position, when the read succeeds. */
  function Taken(file: Bytes, pos: nat, length: nat): Bytes
    requires pos + length <= |file|
  {
    file[pos..pos + length]
  }

  datatype Read = Read(value: nat, next: nat)

  function Number(file: Bytes, pos: nat, width: nat): (r: Option<Read>)
    ensures r.Some? ==> r.value.next == pos + width && Reachable(file, pos + width)
  {
    if Reachable(file, pos + width) then Some(Read(Value(Taken(file, pos, width)), pos + width)) else None
  }

  function U32(file: Bytes, pos: nat): (r: Option<Read>)
    ensures r.Some? ==> r.value.next == pos + 4 && Reachable(file, pos + 4)
  {
    Number(file, pos, 4)
  }

  function Count(file: Bytes, pos: nat): (r: Option<Read>)
    ensures r.Some? ==> r.value.next == pos + 8 && Reachable(file, pos + 8) && r.value.value <= MAX_SAFE_INTEGER
  {
    var n := Number(file, pos, 8);
    if n.Some? && n.value.value <= MAX_SAFE_INTEGER then n else None
  }

  function SkipString(file: Bytes, pos: nat): (r: Option<nat>)
    ensures r.Some? ==> pos + 8 <= r.value && Reachable(file, r.value)
  {
    var n := Count(file, pos);
    if n.None? then None else Advance(file, n.value.next, n.value.value)
  }

  const STRING := 8
  const ARRAY := 9

  /** The size of a value of a fixed-size type, 0 for every other type. */
  function FixedBytes(kind: nat): (n: nat)
    ensures n <= 8
  {
    if kind in {0, 1, 7} then 1
    else if kind in {2, 3} then 2
    else if kind in {4, 5, 6} then 4
    else if kind in {10, 11, 12} then 8
    else 0
  }

  /** Skips one metadata value, with room on the call stack for so many calls inside one another:
      without room the source throws, like on any other failure. Every nested array consumes its
      own twelve header bytes, so skipping ends on every file. */
  function SkipValue(file: Bytes, pos: nat, kind: nat, room: nat): (r: Option<nat>)
    requires Reachable(file, pos)
    ensures r.Some? ==> pos <= r.value && Reachable(file, r.value)
    decreases |file| - pos, 0, 0
  {
    if room == 0 then None
    else if FixedBytes(kind) > 0 then Advance(file, pos, FixedBytes(kind))
    else if kind == STRING then SkipString(file, pos)
    else if kind != ARRAY then None
    else
      var itemKind := U32(file, pos);
      if itemKind.None? then None
      else
        var count := Count(file, itemKind.value.next);
        if count.None? || count.value.value > MAX_COLLECTION_ITEMS then None
        else if FixedBytes(itemKind.value.value) > 0 then
          Advance(file, count.value.next, count.value.value * FixedBytes(itemKind.value.value))
        else SkipItems(file, count.value.next, itemKind.value.value, count.value.value, room - 1)
  }

  function SkipItems(file: Bytes, pos: nat, kind: nat, count: nat, room: nat): (r: Option<nat>)
    requires Reachable(file, pos)
    ensures r.Some? ==> pos <= r.value && Reachable(file, r.value)
    decreases |file| - pos, 1, count
  {
    if count == 0 then Some(pos)
    else
      var next := SkipValue(file, pos, kind, room);
      if next.None? then None else SkipItems(file, next.value, kind, count - 1, room)
  }

  /** Skips one metadata pair: its key, its type and its value. */
  function SkipPair(file: Bytes, pos: nat, room: nat): (r: Option<nat>)
    requires Reachable(file, pos)
    ensures r.Some? ==> pos <= r.value && Reachable(file, r.value)
  {
    var key := SkipString(file, pos);
    if key.None? then None
    else
      var kind := U32(file, key.value);
      if kind.None? then None else SkipValue(file, kind.value.next, kind.value.value, room)
  }

  function SkipMetadata(file: Bytes, pos: nat, count: nat, room: nat): (r: Option<nat>)
    requires Reachable(file, pos)
    ensures r.Some? ==> pos <= r.value && Reachable(file, r.value)
    decreases count
  {
    if count == 0 then Some(pos)
    else
      var next := SkipPair(file, pos, room);
      if next.None? then None else SkipMetadata(file, next.value, count - 1, room)
  }

  datatype TensorRead = TensorRead(name: Bytes, next: nat)

  /** Reads one tensor description: its name, its dimensions and where its data is. */
  function ReadTensor(file: Bytes, pos: nat): (r: Option<TensorRead>)
    requires Reachable(file, pos)
    ensures r.Some? ==> Reachable(file, r.value.next)
  {
    var length := Count(file, pos);
    if length.None? || length.value.value > MAX_HEADER_BYTES then None
    else
      var named := Advance(file, length.value.next, length.value.value);
      if named.None? then None
      else
        var dimensions := U32(file, named.value);
        if dimensions.None? || dimensions.value.value > 16 then None
        else
          var sized := Advance(file, dimensions.value.next, dimensions.value.value * 8);
          if sized.None? then None
          else
            var next := Advance(file, sized.value, 12);
            if next.None? then None
            else Some(TensorRead(Taken(file, length.value.next, length.value.value), next.value))
  }

  function FindTensor(file: Bytes, pos: nat, count: nat, matches: Bytes -> bool): bool
    requires Reachable(file, pos)
    decreases count
  {
    if count == 0 then false
    else
      var tensor := ReadTensor(file, pos);
      tensor.Some? && (matches(tensor.value.name) || FindTensor(file, tensor.value.next, count - 1, matches))
  }

  function HasTensor(file: Bytes, room: nat, matches: Bytes -> bool): bool {
    if !Reachable(file, 4) || file[..4] != MAGIC then false
    else
      var version := U32(file, 4);
      if version.None? || !(2 <= version.value.value <= 3) then false
      else
        var tensors := Count(file, 8);
        if tensors.None? then false
        else
          var metadata := Count(file, 16);
          if metadata.None? || tensors.value.value > MAX_COLLECTION_ITEMS || metadata.value.value > MAX_COLLECTION_ITEMS then false
          else
            var next := SkipMetadata(file, 24, metadata.value.value, room);
            next.Some? && FindTensor(file, next.value, tensors.value.value, matches)
  }

  /** A file that is too short for a header or does not begin with the letters GGUF has no tensor. */
  lemma NoHeaderNoTensor(file: Bytes, room: nat, matches: Bytes -> bool)
    requires |file| < 24 || file[0] != 'G' as int || file[1] != 'G' as int || file[2] != 'U' as int || file[3] != 'F' as int
    ensures !HasTensor(file, room, matches)
  {
    hide SkipMetadata;
    hide FindTensor;
    if |file| >= 24 {
      assert file[..4][0] == file[0] && file[..4][1] == file[1] && file[..4][2] == file[2] && file[..4][3] == file[3];
    }
  }

  /** Values of a type that the format does not have cannot be skipped. */
  lemma UnknownKindFails(file: Bytes, pos: nat, kind: nat, room: nat)
    requires Reachable(file, pos) && kind > 12
    ensures SkipValue(file, pos, kind, room) == None
  {
  }

  // ----- the buffered reader -----

  class GgufHeaderReader {
    const file: Bytes
    var position: nat
    const buffer: array<Byte>
    var bufferStart: int
    var bufferLength: nat

    /** The buffer holds the file's own bytes from its start. */
    ghost predicate Valid()
      reads this, buffer
    {
      && Reachable(file, position)
      && buffer.Length == READ_BUFFER_BYTES && bufferLength <= buffer.Length
      && (if bufferStart == -1 then bufferLength == 0
          else 0 <= bufferStart && bufferStart + bufferLength <= |file|
               && buffer[..bufferLength] == file[bufferStart..bufferStart + bufferLength])
    }

    constructor (file: Bytes)
      ensures Valid() && position == 0 && this.file == file && fresh(buffer)
    {
      this.file := file;
      position, bufferStart, bufferLength := 0, -1, 0;
      buffer := new Byte[READ_BUFFER_BYTES](_ => 0);
    }

    /** Fills the buffer from the file, as far as the file goes. */
    method Refill()
      requires Valid()
      modifies buffer, this`bufferStart, this`bufferLength
      ensures Valid() && bufferStart == position && bufferLength == Min(READ_BUFFER_BYTES, |file| - position)
    {
      var start := position;
      var length := Min(buffer.Length, |file| - position);
      var i := 0;
      while i < length
        invariant 0 <= i <= length && buffer[..i] == file[start..start + i]
      {
        buffer[i] := file[start + i];
        i := i + 1;
      }
      bufferStart, bufferLength := start, length;
    }

    /** A read that bypasses the buffer because it could not hold the result. */
    method Direct(length: nat) returns (bytes: Option<Bytes>)
      requires Valid()
      modifies this`position
      ensures bytes.Some? <==> Advance(file, old(position), length).Some?
      ensures bytes.Some? ==> Valid() && position == old(position) + length && bytes.value == Taken(file, old(position), length)
    {
      if position + length > |file| {
        return None;
      }
      bytes := Some(file[position..position + length]);
      position := position + length;
      if position > MAX_HEADER_BYTES {
        return None;
      }
    }

    /** Bytes the buffer holds are the file's own. */
    method Held(length: nat) returns (bytes: Bytes)
      requires Valid() && 0 <= bufferStart <= position && position + length <= bufferStart + bufferLength
      ensures position + length <= |file| && bytes == file[position..position + length]
    {
      var offset := position - bufferStart;
      bytes := buffer[offset..offset + length];
      forall i | 0 <= i < length
        ensures bytes[i] == file[position + i]
      {
        assert bytes[i] == buffer[..bufferLength][offset + i];
      }
    }

    /** A read served from the buffer, which is refilled when it does not hold the bytes. */
    method Buffered(length: nat) returns (bytes: Option<Bytes>)
      requires Valid() && length <= READ_BUFFER_BYTES
      modifies this, buffer
      ensures bytes.Some? <==> Advance(file, old(position), length).Some?
      ensures bytes.Some? ==> Valid() && position == old(position) + length && bytes.value == Taken(file, old(position), length)
    {
      if position < bufferStart || position + length > bufferStart + bufferLength {
        Refill();
      }
      var offset := position - bufferStart;
      if offset < 0 || offset + length > bufferLength {
        return None;
      }
      var held := Held(length);
      position := position + length;
      if position > MAX_HEADER_BYTES {
        return None;
      }
      bytes := Some(held);
    }

    /** Returns exactly the next bytes of the file, or throws where the unbuffered reader does. */
    method Bytes(length: nat) returns (bytes: Option<Bytes>)
      requires Valid()
      modifies this, buffer
      ensures bytes.Some? <==> Advance(file, old(position), length).Some?
      ensures bytes.Some? ==> Valid() && position == old(position) + length && bytes.value == Taken(file, old(position), length)
      ensures bytes.Some? <==> old(position) + length <= |file| && old(position) + length <= 64 * 1024 * 1024
    {
      if length > buffer.Length {
        bytes := Direct(length);
      } else {
        bytes := Buffered(length);
      }
    }

    method ReadNumber(width: nat) returns (n: Option<nat>)
      requires Valid()
      modifies this, buffer
      ensures n.Some? <==> Number(file, old(position), width).Some?
      ensures n.Some? ==> Valid() && Number(file, old(position), width) == Some(Read(n.value, position))
    {
      var bytes := Bytes(width);
      return if bytes.Some? then Some(Value(bytes.value)) else None;
    }

    method ReadCount() returns (n: Option<nat>)
      requires Valid()
      modifies this, buffer
      ensures n.Some? <==> Count(file, old(position)).Some?
      ensures n.Some? ==> Valid() && Count(file, old(position)) == Some(Read(n.value, position))
    {
      n := ReadNumber(8);
      if n.Some? && n.value > MAX_SAFE_INTEGER {
        n := None;
      }
    }

    method Skip(length: nat) returns (ok: bool)
      requires Valid()
      modifies this`position
      ensures ok <==> Advance(file, old(position), length).Some?
      ensures ok <==> old(position) + length <= |file| && old(position) + length <= 64 * 1024 * 1024
      ensures ok ==> Valid() && position == old(position) + length
      ensures !ok ==> Valid() && position == old(position)
    {
      if position + length > |file| || position + length > MAX_HEADER_BYTES {
        return false;
      }
      position := position + length;
      return true;
    }

    method SkipText() returns (ok: bool)
      requires Valid()
      modifies this, buffer
      ensures ok <==> SkipString(file, old(position)).Some?
      ensures ok ==> Valid() && SkipString(file, old(position)) == Some(position)
    {
      var length := ReadCount();
      if length.None? {
        return false;
      }
      ok := Skip(length.value);
    }

    method SkipOne(kind: nat, room: nat) returns (ok: bool)
      requires Valid()
      modifies this, buffer
      ensures ok <==> SkipValue(file, old(position), kind, room).Some?
      ensures ok ==> Valid() && SkipValue(file, old(position), kind, room) == Some(position)
      decreases |file| - position, 0, 0
    {
      hide Number;
      hide SkipString;
      hide SkipItems;
      if room == 0 {
        return false;
      }
      var fixed := FixedBytes(kind);
      if fixed > 0 {
        ok := Skip(fixed);
        return;
      }
      if kind == STRING {
        ok := SkipText();
        return;
      }
      if kind != ARRAY {
        return false;
      }
      var itemKind := ReadNumber(4);
      if itemKind.None? {
        return false;
      }
      var count := ReadCount();
      if count.None? || count.value > MAX_COLLECTION_ITEMS {
        return false;
      }
      var itemBytes := FixedBytes(itemKind.value);
      if itemBytes > 0 {
        ok := Skip(count.value * itemBytes);
        return;
      }
      ok := SkipAll(itemKind.value, count.value, room - 1);
    }

    method SkipAll(kind: nat, count: nat, room: nat) returns (ok: bool)
      requires Valid()
      modifies this, buffer
      ensures ok <==> SkipItems(file, old(position), kind, count, room).Some?
      ensures ok ==> Valid() && SkipItems(file, old(position), kind, count, room) == Some(position)
      decreases |file| - position, 1, count
    {
      hide SkipValue;
      ghost var start := position;
      var index := 0;
      while index < count
        invariant 0 <= index <= count && Valid() && start <= position
        invariant SkipItems(file, start, kind, count, room) == SkipItems(file, position, kind, count - index, room)
      {
        var skipped := SkipOne(kind, room);
        if !skipped {
          return false;
        }
        index := index + 1;
      }
      return true;
    }

    method SkipEntry(room: nat) returns (ok: bool)
      requires Valid()
      modifies this, buffer
      ensures ok <==> SkipPair(file, old(position), room).Some?
      ensures ok ==> Valid() && SkipPair(file, old(position), room) == Some(position)
    {
      hide Number;
      hide SkipString;
      hide SkipValue;
      ok := SkipText();
      if !ok {
        return;
      }
      var kind := ReadNumber(4);
      if kind.None? {
        return false;
      }
      ok := SkipOne(kind.value, room);
    }

    method NextTensor() returns (tensor: Option<Bytes>)
      requires Valid()
      modifies this, buffer
      ensures tensor.Some? <==> ReadTensor(file, old(position)).Some?
      ensures tensor.Some? ==> Valid() && ReadTensor(file, old(position)) == Some(TensorRead(tensor.value, position))
    {
      hide Number;
      hide Count;
      hide Taken;
      var length := ReadCount();
      if length.None? || length.value > MAX_HEADER_BYTES {
        return None;
      }
      var name := Bytes(length.value);
      if name.None? {
        return None;
      }
      var dimensions := ReadNumber(4);
      if dimensions.None? || dimensions.value > 16 {
        return None;
      }
      var ok := Skip(dimensions.value * 8);
      if !ok {
        return None;
      }
      ok := Skip(4 + 8);
      if !ok {
        return None;
      }
      return name;
    }
  }

  method SkipAllMetadata(reader: GgufHeaderReader, count: nat, room: nat) returns (ok: bool)
    requires reader.Valid()
    modifies reader, reader.buffer
    ensures ok <==> SkipMetadata(reader.file, old(reader.position), count, room).Some?
    ensures ok ==> reader.Valid() && SkipMetadata(reader.file, old(reader.position), count, room) == Some(reader.position)
  {
    hide SkipPair;
    var index := 0;
    while index < count
      invariant 0 <= index <= count && reader.Valid()
      invariant SkipMetadata(reader.file, old(reader.position), count, room) == SkipMetadata(reader.file, reader.position, count - index, room)
    {
      var skipped := reader.SkipEntry(room);
      if !skipped {
        return false;
      }
      index := index + 1;
    }
    return true;
  }

  method ScanTensors(reader: GgufHeaderReader, count: nat, matches: Bytes -> bool) returns (found: bool)
    requires reader.Valid()
    modifies reader, reader.buffer
    ensures found == FindTensor(reader.file, old(reader.position), count, matches)
  {
    hide ReadTensor;
    var index := 0;
    while index < count
      invariant 0 <= index <= count && reader.Valid()
      invariant FindTensor(reader.file, old(reader.position), count, matches)
                == FindTensor(reader.file, reader.position, count - index, matches)
    {
      var name := reader.NextTensor();
      if name.None? {
        return false;
      }
      if matches(name.value) {
        return true;
      }
      index := index + 1;
    }
    return false;
  }

  /** The inspection, on the buffered reader, decides what the unbuffered reading decides. */
  method GgufHasTensor(file: Bytes, room: nat, matches: Bytes -> bool) returns (found: bool)
    ensures found == HasTensor(file, room, matches)
  {
    var reader := new GgufHeaderReader(file);
    var magic := reader.Bytes(4);
    if magic.None? || magic.value != MAGIC {
      return false;
    }
    var version := reader.ReadNumber(4);
    if version.None? || version.value < 2 || version.value > 3 {
      return false;
    }
    var tensorCount := reader.ReadCount();
    if tensorCount.None? {
      return false;
    }
    var metadataCount := reader.ReadCount();
    if metadataCount.None? || tensorCount.value > MAX_COLLECTION_ITEMS || metadataCount.value > MAX_COLLECTION_ITEMS {
      return false;
    }
    var ok := SkipAllMetadata(reader, metadataCount.value, room);
    if !ok {
      return false;
    }
    found := ScanTensors(reader, tensorCount.value, matches);
  }
}

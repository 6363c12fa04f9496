/** The block index stored beside a chat message: parsing a text into blocks, and recognising an
    index that fits a text. */
module ChatContents {
  import opened Basics

  datatype Shape =
    | Markdown | Code(language: Option<string>) | Diff | Table | Diagram | Math
    | Image(reference: string, alt: string, title: Option<string>)
    | Media(audio: bool, reference: string, name: string)
    | File(reference: string, name: string, artifactId: Option<string>)
    | Interactive(reference: string, name: string, artifactId: Option<string>)
    | BadShape

  /** The name of a parsed block is made of its type and its start; others may have been stored. */
  datatype BlockId = Generated(kind: string, start: nat) | Foreign(name: string)

  datatype Block = Block(id: BlockId, shape: Shape, start: int, end: int)

  /** What is stored as the index of a message: a versioned list of blocks with whatever else is
      stored with it, or something that is none. */
  datatype Index = Document(blocks: seq<Block>, rest: string) | Unusable(raw: string)

  /** What the patterns for single lines recognise: an opening fence with the block it starts, a
      closing fence, the divider under a table's heading, and an image or link standing alone. */
  datatype Markup = Markup(fence: string -> Option<Shape>, closes: string -> bool,
                           divider: string -> bool, single: string -> Option<Shape>)

  ghost predicate WellShaped(markup: Markup) {
    forall text: string ::
      markup.fence(text) != Some(BadShape) && markup.single(text) != Some(BadShape)
  }

  function KindName(shape: Shape): string {
    match shape
    case Markdown => "markdown"
    case Code(_) => "code"
    case Diff => "diff"
    case Table => "table"
    case Diagram => "diagram"
    case Math => "math"
    case Image(_, _, _) => "image"
    case Media(_, _, _) => "media"
    case File(_, _, _) => "file"
    case Interactive(_, _, _) => "interactive"
    case BadShape => ""
  }

  // ----- lines -----

  datatype Line = Line(start: nat, end: nat, text: string)

  function LineAt(source: string, start: nat): (line: Line)
    requires start < |source|
    ensures line.start == start < line.end <= |source|
  {
    var newline := LineEnd(source, start);
    Line(start, if newline == |source| then newline else newline + 1, WithoutReturn(source[start..newline]))
  }

  function SourceLines(source: string, start: nat): seq<Line>
    requires start <= |source|
    decreases |source| - start
  {
    if start == |source| then []
    else [LineAt(source, start)] + SourceLines(source, LineAt(source, start).end)
  }

  /** Non-empty lines, each beginning where the one before ends. */
  predicate Consecutive(lines: seq<Line>, from: nat, to: nat) {
    && (forall i :: 0 <= i < |lines| ==> Follows(lines, i, from))
    && to == LineStart(lines, |lines|, from)
  }

  predicate Follows(lines: seq<Line>, i: nat, from: nat)
    requires i < |lines|
  {
    lines[i].start == LineStart(lines, i, from) < lines[i].end
  }

  function LineStart(lines: seq<Line>, i: nat, from: nat): nat
    requires i <= |lines|
  {
    if i == 0 then from else lines[i - 1].end
  }

  lemma {:induction false} LinesCover(source: string, start: nat)
    requires start <= |source|
    ensures Consecutive(SourceLines(source, start), start, |source|)
    decreases |source| - start
  {
    if start < |source| {
      var line := LineAt(source, start);
      LinesCover(source, line.end);
      var rest, lines := SourceLines(source, line.end), SourceLines(source, start);
      forall i | 0 <= i < |lines|
        ensures Follows(lines, i, start)
      {
        if i > 0 {
          assert Follows(rest, i - 1, line.end);
          assert lines[i] == rest[i - 1];
          assert LineStart(lines, i, start) == LineStart(rest, i - 1, line.end);
        }
      }
      assert LineStart(lines, |lines|, start) == LineStart(rest, |rest|, line.end);
    }
  }

  // ----- blocks -----

  datatype Special = Special(shape: Shape, next: nat)

  /** The first line from `i` on for which the test holds. */
  function FirstLine(lines: seq<Line>, i: nat, test: string -> bool): (k: nat)
    requires i <= |lines|
    ensures i <= k <= |lines|
    decreases |lines| - i
  {
    if i == |lines| || test(lines[i].text) then i else FirstLine(lines, i + 1, test)
  }

  predicate IsDollars(text: string) {
    Trim(text) == "$$"
  }

  predicate IsRow(text: string) {
    Trim(text) != "" && '|' in text
  }

  /** The block that is not markdown at a line, and the line after it. An unclosed fence or
      formula runs to the end. */
  function SpecialAt(lines: seq<Line>, index: nat, markup: Markup): (special: Option<Special>)
    requires index < |lines|
    ensures special.Some? ==> index < special.value.next <= |lines|
  {
    var text := lines[index].text;
    var fence, single := markup.fence(text), markup.single(text);
    if fence.Some? then Some(Special(fence.value, Closed(lines, index + 1, markup.closes)))
    else if IsDollars(text) then Some(Special(Math, Closed(lines, index + 1, IsDollars)))
    else if '|' in text && index + 1 < |lines| && markup.divider(lines[index + 1].text) then
      Some(Special(Table, FirstLine(lines, index + 2, (row: string) => !IsRow(row))))
    else if single.Some? then Some(Special(single.value, index + 1))
    else None
  }

  /** The line after the closing one, or the end. */
  function Closed(lines: seq<Line>, i: nat, closes: string -> bool): (next: nat)
    requires i <= |lines|
    ensures i <= next <= |lines|
  {
    var close := FirstLine(lines, i, closes);
    if close < |lines| then close + 1 else close
  }

  /** The first line from `i` on at which a special block starts. */
  function PlainEnd(lines: seq<Line>, i: nat, markup: Markup): (k: nat)
    requires i <= |lines|
    ensures i <= k <= |lines|
    decreases |lines| - i
  {
    if i == |lines| || SpecialAt(lines, i, markup).Some? then i else PlainEnd(lines, i + 1, markup)
  }

  /** A block of the lines from `index` up to `next`, named by its type and start. */
  function BlockOf(lines: seq<Line>, index: nat, next: nat, shape: Shape): Block
    requires index < next <= |lines|
  {
    Block(Generated(KindName(shape), lines[index].start), shape, lines[index].start, lines[next - 1].end)
  }

  function NextBlock(lines: seq<Line>, index: nat, markup: Markup): (special: Special)
    requires index < |lines|
    ensures index < special.next <= |lines|
  {
    var special := SpecialAt(lines, index, markup);
    if special.Some? then special.value else Special(Markdown, PlainEnd(lines, index + 1, markup))
  }

  function BlocksFrom(lines: seq<Line>, index: nat, markup: Markup): seq<Block>
    requires index <= |lines|
    decreases |lines| - index
  {
    if index == |lines| then []
    else
      var block := NextBlock(lines, index, markup);
      [BlockOf(lines, index, block.next, block.shape)] + BlocksFrom(lines, block.next, markup)
  }

  function Parsed(source: string, markup: Markup): Index {
    Document(BlocksFrom(SourceLines(source, 0), 0, markup), "")
  }

  lemma MovesOver<T>(done: seq<T>, x: T, rest: seq<T>)
    ensures done + ([x] + rest) == (done + [x]) + rest
  {
  }

  method SplitLines(source: string) returns (lines: seq<Line>)
    ensures lines == SourceLines(source, 0)
  {
    hide LineEnd;
    hide WithoutReturn;
    lines := [];
    var start := 0;
    while start < |source|
      invariant 0 <= start <= |source| && lines + SourceLines(source, start) == SourceLines(source, 0)
    {
      var newline := LineEnd(source, start);
      var end := if newline == |source| then |source| else newline + 1;
      var line := Line(start, end, WithoutReturn(source[start..newline]));
      assert line == LineAt(source, start);
      MovesOver(lines, line, SourceLines(source, end));
      lines := lines + [line];
      start := end;
    }
  }

  /** Blocks are collected from the top: a special one, or the plain lines before the next. */
  method ParseChatContent(source: string, markup: Markup) returns (document: Index)
    ensures document == Parsed(source, markup)
  {
    hide SpecialAt;
    hide BlockOf;
    hide SourceLines;
    var lines := SplitLines(source);
    var blocks: seq<Block> := [];
    var index := 0;
    while index < |lines|
      invariant 0 <= index <= |lines|
      invariant blocks + BlocksFrom(lines, index, markup) == BlocksFrom(lines, 0, markup)
    {
      ghost var rest := NextBlock(lines, index, markup);
      MovesOver(blocks, BlockOf(lines, index, rest.next, rest.shape), BlocksFrom(lines, rest.next, markup));
      var special := SpecialAt(lines, index, markup);
      if special.Some? {
        blocks := blocks + [BlockOf(lines, index, special.value.next, special.value.shape)];
        index := special.value.next;
      } else {
        var startIndex := index;
        index := PlainLines(lines, index + 1, markup);
        blocks := blocks + [BlockOf(lines, startIndex, index, Markdown)];
      }
    }
    document := Document(blocks, "");
  }

  method PlainLines(lines: seq<Line>, from: nat, markup: Markup) returns (index: nat)
    requires from <= |lines|
    ensures index == PlainEnd(lines, from, markup)
  {
    hide SpecialAt;
    index := from;
    while index < |lines| && SpecialAt(lines, index, markup).None?
      invariant from <= index <= |lines|
      invariant PlainEnd(lines, index, markup) == PlainEnd(lines, from, markup)
    {
      index := index + 1;
    }
  }

  // ----- recognising an index -----

  function BlockStart(blocks: seq<Block>, i: nat): int
    requires i <= |blocks|
  {
    if i == 0 then 0 else blocks[i - 1].end
  }

  predicate BlockFits(blocks: seq<Block>, i: nat, length: nat)
    requires i < |blocks|
  {
    && blocks[i].start == BlockStart(blocks, i) <= blocks[i].end <= length
    && blocks[i].shape != BadShape
    && forall j :: 0 <= j < i ==> blocks[j].id != blocks[i].id
  }

  /** A list of well-formed blocks with ids of their own that cover a text of that length without
      gaps. */
  predicate Fits(index: Index, length: nat) {
    && index.Document?
    && (forall i :: 0 <= i < |index.blocks| ==> BlockFits(index.blocks, i, length))
    && BlockStart(index.blocks, |index.blocks|) == length
  }

  method IsChatContentDocument(value: Index, length: nat) returns (valid: bool)
    ensures valid <==> Fits(value, length)
  {
    if value.Unusable? {
      return false;
    }
    var blocks := value.blocks;
    var previousEnd := 0;
    var ids: set<BlockId> := {};
    var i := 0;
    while i < |blocks|
      invariant 0 <= i <= |blocks| && previousEnd == BlockStart(blocks, i)
      invariant ids == set j | 0 <= j < i :: blocks[j].id
      invariant forall j :: 0 <= j < i ==> BlockFits(blocks, j, length)
    {
      var block := blocks[i];
      if block.id in ids || block.start != previousEnd || block.end < block.start || block.end > length
         || block.shape == BadShape {
        assert !BlockFits(blocks, i, length);
        return false;
      }
      assert BlockFits(blocks, i, length);
      ids := ids + {block.id};
      previousEnd := block.end;
      i := i + 1;
    }
    valid := previousEnd == length;
  }

  // ----- what the blocks of a text are -----

  /** A line of a text: it starts where it starts, ends behind the next line feed or with the text,
      and reads as what is in between without the line end. */
  predicate IsLine(source: string, line: Line) {
    && line.start < line.end <= |source|
    && (forall j :: line.start <= j < line.end - 1 ==> source[j] != '\n')
    && (source[line.end - 1] == '\n' || line.end == |source|)
    && var cut := if source[line.end - 1] == '\n' then line.end - 1 else line.end;
       line.text == source[line.start..if cut > line.start && source[cut - 1] == '\r' then cut - 1 else cut]
  }

  lemma LineIs(source: string, start: nat)
    requires start < |source|
    ensures IsLine(source, LineAt(source, start))
  {
    var newline := LineEnd(source, start);
    var raw := source[start..newline];
    assert raw != [] ==> Last(raw) == source[newline - 1] && raw[..|raw| - 1] == source[start..newline - 1];
  }

  /** The lines are those of the text, from its beginning to its end. */
  lemma {:induction false} LinesExactly(source: string, start: nat, i: nat)
    requires start <= |source| && i < |SourceLines(source, start)|
    ensures var lines := SourceLines(source, start);
            && IsLine(source, lines[i])
            && lines[i].start == (if i == 0 then start else lines[i - 1].end)
            && (i == |lines| - 1 ==> lines[i].end == |source|)
    decreases i
  {
    hide IsLine;
    hide LineAt;
    LineIs(source, start);
    var next := LineAt(source, start).end;
    var rest := SourceLines(source, next);
    if i > 0 {
      LinesExactly(source, next, i - 1);
    }
  }

  /** The fence or formula that opens before `from` is closed by the line before `to`, the first that
      closes it, or by none, and runs to the end. */
  predicate ClosedBefore(lines: seq<Line>, from: nat, to: nat, closes: string -> bool)
    requires from <= to <= |lines|
  {
    || (from < to && closes(lines[to - 1].text) && forall j :: from <= j < to - 1 ==> !closes(lines[j].text))
    || (to == |lines| && forall j :: from <= j < to ==> !closes(lines[j].text))
  }

  /** A heading with its divider below it. */
  predicate HeadsTable(lines: seq<Line>, k: nat, markup: Markup)
    requires k < |lines|
  {
    '|' in lines[k].text && k + 1 < |lines| && markup.divider(lines[k + 1].text)
  }

  /** Something other than plain text starts at a line. */
  predicate StartsSpecial(lines: seq<Line>, k: nat, markup: Markup)
    requires k < |lines|
  {
    || markup.fence(lines[k].text).Some? || Trim(lines[k].text) == "$$" || HeadsTable(lines, k, markup)
    || markup.single(lines[k].text).Some?
  }

  /** The lines from `from` up to `to` are one block of that shape: a fence, else a formula, each up to
      its close, else a table with its rows, else an image or link, else the plain lines before the
      next of these. */
  predicate Covers(lines: seq<Line>, from: nat, to: nat, shape: Shape, markup: Markup)
    requires from < to <= |lines|
  {
    var text := lines[from].text;
    if markup.fence(text).Some? then
      shape == markup.fence(text).value && ClosedBefore(lines, from + 1, to, markup.closes)
    else if Trim(text) == "$$" then
      shape == Math && ClosedBefore(lines, from + 1, to, (line: string) => Trim(line) == "$$")
    else if HeadsTable(lines, from, markup) then
      && shape == Table && from + 2 <= to
      && (forall j :: from + 2 <= j < to ==> '|' in lines[j].text && Trim(lines[j].text) != "")
      && (to < |lines| ==> !('|' in lines[to].text && Trim(lines[to].text) != ""))
    else if markup.single(text).Some? then shape == markup.single(text).value && to == from + 1
    else
      && shape == Markdown
      && (forall j :: from < j < to ==> !StartsSpecial(lines, j, markup))
      && (to < |lines| ==> StartsSpecial(lines, to, markup))
  }

  lemma {:induction false} FirstLineIs(lines: seq<Line>, i: nat, test: string -> bool)
    requires i <= |lines|
    ensures var k := FirstLine(lines, i, test);
            (forall j :: i <= j < k ==> !test(lines[j].text)) && (k < |lines| ==> test(lines[k].text))
    decreases |lines| - i
  {
    if i < |lines| && !test(lines[i].text) {
      FirstLineIs(lines, i + 1, test);
    }
  }

  lemma SpecialStarts(lines: seq<Line>, k: nat, markup: Markup)
    requires k < |lines|
    ensures SpecialAt(lines, k, markup).Some? <==> StartsSpecial(lines, k, markup)
  {
    hide Trim;
    hide FirstLine;
    hide Closed;
  }

  lemma {:induction false} PlainEndIs(lines: seq<Line>, i: nat, markup: Markup)
    requires i <= |lines|
    ensures var k := PlainEnd(lines, i, markup);
            && (forall j :: i <= j < k ==> !StartsSpecial(lines, j, markup))
            && (k < |lines| ==> StartsSpecial(lines, k, markup))
    decreases |lines| - i
  {
    hide SpecialAt;
    hide StartsSpecial;
    if i < |lines| {
      SpecialStarts(lines, i, markup);
      if SpecialAt(lines, i, markup).None? {
        PlainEndIs(lines, i + 1, markup);
      }
    }
  }

  lemma ClosedIs(lines: seq<Line>, i: nat, closes: string -> bool)
    requires i <= |lines|
    ensures ClosedBefore(lines, i, Closed(lines, i, closes), closes)
  {
    FirstLineIs(lines, i, closes);
  }

  lemma DollarsClose(lines: seq<Line>, i: nat, to: nat)
    requires i <= to <= |lines| && ClosedBefore(lines, i, to, IsDollars)
    ensures ClosedBefore(lines, i, to, (line: string) => Trim(line) == "$$")
  {
    hide Trim;
  }

  lemma SpecialCovers(lines: seq<Line>, k: nat, markup: Markup)
    requires k < |lines| && SpecialAt(lines, k, markup).Some?
    ensures var special := SpecialAt(lines, k, markup).value;
            Covers(lines, k, special.next, special.shape, markup)
  {
    hide Trim;
    hide FirstLine;
    hide Closed;
    hide ClosedBefore;
    hide StartsSpecial;
    ClosedIs(lines, k + 1, markup.closes);
    ClosedIs(lines, k + 1, IsDollars);
    if SpecialAt(lines, k, markup).value.shape == Math {
      DollarsClose(lines, k + 1, Closed(lines, k + 1, IsDollars));
    }
    if HeadsTable(lines, k, markup) {
      FirstLineIs(lines, k + 2, (row: string) => !IsRow(row));
    }
  }

  lemma NextCovers(lines: seq<Line>, k: nat, markup: Markup)
    requires k < |lines|
    ensures Covers(lines, k, NextBlock(lines, k, markup).next, NextBlock(lines, k, markup).shape, markup)
  {
    hide Trim;
    hide SpecialAt;
    hide PlainEnd;
    hide ClosedBefore;
    hide HeadsTable;
    if SpecialAt(lines, k, markup).Some? {
      SpecialCovers(lines, k, markup);
    } else {
      SpecialStarts(lines, k, markup);
      PlainEndIs(lines, k + 1, markup);
    }
  }

  /** Where the blocks begin and the last one ends: positions among the lines that rise from the first
      line to the end, each block covering the lines between two neighbours. */
  ghost predicate CutAt(lines: seq<Line>, index: nat, blocks: seq<Block>, cuts: seq<nat>, markup: Markup) {
    && |cuts| == |blocks| + 1 && cuts[0] == index && cuts[|blocks|] == |lines|
    && forall i :: 0 <= i < |blocks| ==> BlockAt(lines, cuts[i], cuts[i + 1], blocks[i], markup)
  }

  ghost predicate BlockAt(lines: seq<Line>, from: nat, to: nat, block: Block, markup: Markup) {
    && from < to <= |lines| && Covers(lines, from, to, block.shape, markup)
    && block.start == lines[from].start && block.end == lines[to - 1].end
    && block.id == Generated(KindName(block.shape), lines[from].start)
  }

  /** The blocks of a text cover its lines from the first to the last, each as much as its kind takes,
      and are named by their kind and start. */
  lemma {:induction false} BlocksExactly(lines: seq<Line>, index: nat, markup: Markup) returns (cuts: seq<nat>)
    requires index <= |lines|
    ensures CutAt(lines, index, BlocksFrom(lines, index, markup), cuts, markup)
    decreases |lines| - index
  {
    hide NextBlock;
    hide Covers;
    if index == |lines| {
      cuts := [index];
    } else {
      var block := NextBlock(lines, index, markup);
      NextCovers(lines, index, markup);
      var rest := BlocksExactly(lines, block.next, markup);
      cuts := [index] + rest;
      assert BlockAt(lines, index, block.next, BlockOf(lines, index, block.next, block.shape), markup);
    }
  }

  /** Blocks from the beginning of a text to its end, each from the end of the one before and none
      ending before it starts, well formed and with distinct names. */
  predicate Tiles(blocks: seq<Block>, length: nat) {
    && (if blocks == [] then length == 0 else blocks[0].start == 0 && Last(blocks).end == length)
    && (forall i :: 0 < i < |blocks| ==> blocks[i].start == blocks[i - 1].end)
    && (forall i :: 0 <= i < |blocks| ==> blocks[i].start <= blocks[i].end && !blocks[i].shape.BadShape?)
    && (forall i, j :: 0 <= i < j < |blocks| ==> blocks[i].id != blocks[j].id)
  }

  lemma FitAt(blocks: seq<Block>, rest: string, length: nat, i: nat)
    requires Fits(Document(blocks, rest), length) && i < |blocks|
    ensures blocks[i].start == (if i == 0 then 0 else blocks[i - 1].end)
    ensures blocks[i].start <= blocks[i].end && !blocks[i].shape.BadShape?
    ensures forall j :: 0 <= j < i ==> blocks[j].id != blocks[i].id
  {
    assert BlockFits(blocks, i, length);
  }

  lemma FittingTiles(blocks: seq<Block>, rest: string, length: nat)
    requires Fits(Document(blocks, rest), length)
    ensures Tiles(blocks, length)
  {
    assert BlockStart(blocks, |blocks|) == length;
    hide Fits;
    if blocks != [] {
      FitAt(blocks, rest, length, 0);
    }
    forall i | 0 <= i < |blocks|
      ensures i > 0 ==> blocks[i].start == blocks[i - 1].end
      ensures blocks[i].start <= blocks[i].end && !blocks[i].shape.BadShape?
    {
      FitAt(blocks, rest, length, i);
    }
    forall i, j | 0 <= i < j < |blocks|
      ensures blocks[i].id != blocks[j].id
    {
      FitAt(blocks, rest, length, j);
    }
  }

  lemma TilesFit(blocks: seq<Block>, rest: string, length: nat)
    requires Tiles(blocks, length)
    ensures Fits(Document(blocks, rest), length)
  {
    forall i | 0 <= i < |blocks|
      ensures BlockFits(blocks, i, length)
    {
      EndsRise(blocks, i);
    }
  }

  /** A stored index is taken for that of a text exactly if its blocks tile a text of that length. */
  lemma FitsExactly(index: Index, length: nat)
    ensures Fits(index, length) <==> index.Document? && Tiles(index.blocks, length)
  {
    hide Fits;
    hide Tiles;
    match index
    case Document(blocks, rest) =>
      if Fits(index, length) {
        FittingTiles(blocks, rest, length);
      }
      if Tiles(blocks, length) {
        TilesFit(blocks, rest, length);
      }
    case Unusable(raw) => NothingFits(raw, length);
  }

  lemma NothingFits(raw: string, length: nat)
    ensures !Fits(Unusable(raw), length)
  {
  }

  lemma {:induction false} EndsRise(blocks: seq<Block>, i: nat)
    requires i < |blocks|
    requires forall k :: 0 < k < |blocks| ==> blocks[k].start == blocks[k - 1].end
    requires forall k :: 0 <= k < |blocks| ==> blocks[k].start <= blocks[k].end
    ensures blocks[i].end <= Last(blocks).end
    decreases |blocks| - i
  {
    if i + 1 < |blocks| {
      EndsRise(blocks, i + 1);
    }
  }

  // ----- a parsed index fits its text, and no text of another length -----

  /** Named, well-formed blocks without gaps, none of them empty. */
  predicate Chain(blocks: seq<Block>, from: int, to: int) {
    if blocks == [] then from == to
    else
      && blocks[0].start == from < blocks[0].end && blocks[0].shape != BadShape
      && from >= 0 && blocks[0].id == Generated(KindName(blocks[0].shape), from)
      && Chain(blocks[1..], blocks[0].end, to)
  }

  lemma {:induction false} LinesRise(lines: seq<Line>, i: nat, j: nat, to: nat)
    requires Consecutive(lines, 0, to) && i < j <= |lines|
    ensures lines[i].start == LineStart(lines, i, 0) && lines[i].start < lines[j - 1].end
    decreases j
  {
    assert Follows(lines, i, 0) && Follows(lines, j - 1, 0);
    if i < j - 1 {
      LinesRise(lines, i, j - 1, to);
    }
  }

  lemma {:induction false} BlocksChain(lines: seq<Line>, index: nat, markup: Markup, to: nat)
    requires Consecutive(lines, 0, to) && index <= |lines| && WellShaped(markup)
    ensures Chain(BlocksFrom(lines, index, markup), LineStart(lines, index, 0), to)
    decreases |lines| - index
  {
    hide NextBlock;
    hide WellShaped;
    hide Consecutive;
    if index < |lines| {
      var next := NextBlock(lines, index, markup);
      NextShape(lines, index, markup);
      LinesRise(lines, index, next.next, to);
      BlocksChain(lines, next.next, markup, to);
      var rest := BlocksFrom(lines, next.next, markup);
      assert ([BlockOf(lines, index, next.next, next.shape)] + rest)[1..] == rest;
    } else {
      LinesEnd(lines, to);
    }
  }

  lemma LinesEnd(lines: seq<Line>, to: nat)
    requires Consecutive(lines, 0, to)
    ensures LineStart(lines, |lines|, 0) == to
  {
  }

  lemma NextShape(lines: seq<Line>, index: nat, markup: Markup)
    requires index < |lines| && WellShaped(markup)
    ensures NextBlock(lines, index, markup).shape != BadShape
  {
    var text := lines[index].text;
    assert markup.fence(text) != Some(BadShape) && markup.single(text) != Some(BadShape);
  }

  lemma {:induction false} ChainAt(blocks: seq<Block>, from: int, to: int, i: nat)
    requires Chain(blocks, from, to) && i < |blocks|
    ensures blocks[i].start == (if i == 0 then from else blocks[i - 1].end) && blocks[i].shape != BadShape
    ensures from <= blocks[i].start < blocks[i].end <= to
    ensures blocks[i].start >= 0 && blocks[i].id == Generated(KindName(blocks[i].shape), blocks[i].start)
    ensures i == |blocks| - 1 ==> blocks[i].end == to
  {
    ChainUp(blocks, from, to);
    if i > 0 {
      ChainAt(blocks[1..], blocks[0].end, to, i - 1);
    } else {
      ChainUp(blocks[1..], blocks[0].end, to);
    }
  }

  lemma {:induction false} ChainUp(blocks: seq<Block>, from: int, to: int)
    requires Chain(blocks, from, to)
    ensures from <= to
  {
    if blocks != [] {
      ChainUp(blocks[1..], blocks[0].end, to);
    }
  }

  lemma {:induction false} EarlierStart(blocks: seq<Block>, to: int, j: nat, i: nat)
    requires Chain(blocks, 0, to) && j < i < |blocks|
    ensures blocks[j].start < blocks[i].start
    decreases i
  {
    ChainAt(blocks, 0, to, i);
    ChainAt(blocks, 0, to, i - 1);
    if j < i - 1 {
      EarlierStart(blocks, to, j, i - 1);
    }
  }

  lemma ChainFits(blocks: seq<Block>, rest: string, length: nat)
    requires Chain(blocks, 0, length)
    ensures Fits(Document(blocks, rest), length)
  {
    hide Chain;
    forall i | 0 <= i < |blocks|
      ensures BlockFits(blocks, i, length)
    {
      ChainAt(blocks, 0, length, i);
      forall j | 0 <= j < i
        ensures blocks[j].id != blocks[i].id
      {
        ChainAt(blocks, 0, length, j);
        EarlierStart(blocks, length, j, i);
      }
    }
    if blocks == [] {
      ChainNothing(length);
    } else {
      ChainAt(blocks, 0, length, |blocks| - 1);
    }
  }

  lemma ChainNothing(length: nat)
    ensures Chain([], 0, length) ==> length == 0
  {
  }

  /** A parsed text's index is recognised for texts of exactly that length. */
  lemma ParsedFitsExactly(source: string, markup: Markup, length: nat)
    requires WellShaped(markup)
    ensures Parsed(source, markup).Document?
    ensures Fits(Parsed(source, markup), length) <==> length == |source|
  {
    hide BlocksFrom;
    hide SourceLines;
    hide Chain;
    hide Consecutive;
    var lines := SourceLines(source, 0);
    LinesCover(source, 0);
    BlocksChain(lines, 0, markup, |source|);
    ChainFits(BlocksFrom(lines, 0, markup), "", |source|);
    hide Fits;
    if Fits(Parsed(source, markup), length) {
      OneLength(Parsed(source, markup), length, |source|);
    }
  }

  /** An index is recognised for texts of one length only. */
  lemma OneLength(index: Index, a: nat, b: nat)
    requires Fits(index, a) && Fits(index, b)
    ensures a == b
  {
  }

  /** Two texts of equal length can have different indexes, and each is recognised for the other. */
  lemma SameLengthOtherBlocks(markup: Markup)
    requires WellShaped(markup)
    requires markup.fence("ab").None? && markup.single("ab").None? && markup.fence("$$").None?
    ensures Parsed("ab", markup) != Parsed("$$", markup)
    ensures Fits(Parsed("ab", markup), |"$$"|) && Fits(Parsed("$$", markup), |"ab"|)
  {
    ParsedFitsExactly("ab", markup, 2);
    ParsedFitsExactly("$$", markup, 2);
    OneLine("ab");
    OneLine("$$");
    assert TrimStart("$$") == "$$" && TrimEnd("$$") == "$$";
    assert TrimStart("ab") == "ab" && TrimEnd("ab") == "ab";
    var plain, formula := SourceLines("ab", 0), SourceLines("$$", 0);
    assert SpecialAt(formula, 0, markup).value.shape == Math;
    assert SpecialAt(plain, 0, markup).None?;
    assert BlocksFrom(plain, 0, markup)[0].shape == Markdown;
    assert BlocksFrom(formula, 0, markup)[0].shape == Math;
  }

  lemma OneLine(s: string)
    requires |s| == 2 && s[0] != '\n' && s[1] != '\n' && s[1] != '\r'
    ensures SourceLines(s, 0) == [Line(0, 2, s)]
  {
    assert LineEnd(s, 2) == 2 && LineEnd(s, 1) == 2 && LineEnd(s, 0) == 2;
    assert s[0..2] == s;
    assert SourceLines(s, 2) == [];
  }
}

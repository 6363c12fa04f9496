/** Server-sent events: what the events route writes and how the clients read it back. */
module EventStreams {
  import opened Basics

  // ----- block boundaries -----

  /** The length of the blank-line separator at a position, 0 if there is none: a line end,
      with or without a carriage return, twice. */
  function BoundaryAt(s: string, i: nat): (len: nat)
    requires i <= |s|
    ensures len > 0 ==> 2 <= len <= 4 && i + len <= |s|
  {
    var j := if i < |s| && s[i] == '\r' then i + 1 else i;
    if j < |s| && s[j] == '\n' then
      var k := if j + 1 < |s| && s[j + 1] == '\r' then j + 2 else j + 1;
      if k < |s| && s[k] == '\n' then k + 1 - i else 0
    else 0
  }

  /** The leftmost separator at or after a position. */
  function FindBoundary(s: string, i: nat): (at: nat)
    requires i <= |s|
    ensures i <= at <= |s|
    ensures at < |s| ==> BoundaryAt(s, at) > 0
    ensures forall j :: i <= j < at ==> BoundaryAt(s, j) == 0
    decreases |s| - i
  {
    if i == |s| then i else if BoundaryAt(s, i) > 0 then i else FindBoundary(s, i + 1)
  }

  /** The complete blocks of a text and the unfinished rest. */
  function Extract(s: string): (seq<string>, string)
    decreases |s|
  {
    var at := FindBoundary(s, 0);
    if at == |s| then ([], s)
    else
      var (blocks, rest) := Extract(s[at + BoundaryAt(s, at)..]);
      ([s[..at]] + blocks, rest)
  }

  /** A separator is one of the four texts of two line ends. */
  lemma BoundaryExactly(s: string, i: nat)
    requires i <= |s|
    ensures BoundaryAt(s, i) ==
            if "\n\n" <= s[i..] then 2
            else if "\r\n\n" <= s[i..] || "\n\r\n" <= s[i..] then 3
            else if "\r\n\r\n" <= s[i..] then 4
            else 0
  {
    var rest := s[i..];
    assert forall k :: 0 <= k < |rest| ==> rest[k] == s[i + k];
  }

  lemma BoundaryShape(s: string, i: nat)
    requires i <= |s| && BoundaryAt(s, i) > 0
    ensures var last := i + BoundaryAt(s, i) - 1;
            s[last] == '\n'
            && exists p :: i <= p < last && s[p] == '\n' && forall q :: i <= q < last && q != p ==> s[q] == '\r'
  {
    var j := if s[i] == '\r' then i + 1 else i;
    var last := i + BoundaryAt(s, i) - 1;
    assert s[j] == '\n' && i <= j < last;
  }

  lemma BoundaryLocal(a: string, b: string, i: nat)
    requires i <= |a|
    ensures BoundaryAt(a, i) > 0 ==> BoundaryAt(a + b, i) == BoundaryAt(a, i)
    ensures BoundaryAt(a + b, i) > 0 && i + BoundaryAt(a + b, i) <= |a| ==> BoundaryAt(a, i) == BoundaryAt(a + b, i)
  {
    assert forall k :: 0 <= k < |a| ==> (a + b)[k] == a[k];
  }

  /** A separator that starts before one lying inside `a` ends inside `a` too: it has only
      two line feeds. */
  lemma EarlierEndsInside(a: string, b: string, at: nat, early: nat)
    requires early < at < |a| && BoundaryAt(a, at) > 0 && BoundaryAt(a + b, early) > 0
    ensures early + BoundaryAt(a + b, early) <= |a|
  {
    BoundaryShape(a, at);
    BoundaryShape(a + b, early);
    hide BoundaryAt;
    var last := at + BoundaryAt(a, at) - 1;
    var p :| at <= p < last && a[p] == '\n';
    assert (a + b)[p] == a[p] && (a + b)[last] == a[last];
  }

  /** More input cannot reveal an earlier separator than the one already found. */
  lemma BoundaryStays(a: string, b: string)
    requires FindBoundary(a, 0) < |a|
    ensures FindBoundary(a + b, 0) == FindBoundary(a, 0)
    ensures BoundaryAt(a + b, FindBoundary(a, 0)) == BoundaryAt(a, FindBoundary(a, 0))
  {
    hide BoundaryAt;
    var at := FindBoundary(a, 0);
    BoundaryLocal(a, b, at);
    forall early | 0 <= early < at
      ensures BoundaryAt(a + b, early) == 0
    {
      BoundaryLocal(a, b, early);
      if BoundaryAt(a + b, early) > 0 {
        EarlierEndsInside(a, b, at, early);
      }
    }
  }

  lemma ExtractFirst(s: string, at: nat)
    requires at == FindBoundary(s, 0) < |s|
    ensures Extract(s) == ([s[..at]] + Extract(s[at + BoundaryAt(s, at)..]).0, Extract(s[at + BoundaryAt(s, at)..]).1)
  {
    hide BoundaryAt;
  }

  lemma ExtractNone(s: string)
    requires FindBoundary(s, 0) == |s|
    ensures Extract(s) == ([], s)
  {
  }

  /** Reading a text in two pieces finds the same blocks as reading it whole. */
  lemma {:induction false} ExtractAppend(a: string, b: string)
    ensures Extract(a + b).0 == Extract(a).0 + Extract(Extract(a).1 + b).0
    ensures Extract(a + b).1 == Extract(Extract(a).1 + b).1
    decreases |a|
  {
    hide BoundaryAt;
    hide FindBoundary;
    hide Extract;
    var at := FindBoundary(a, 0);
    if at < |a| {
      BoundaryStays(a, b);
      var n := at + BoundaryAt(a, at);
      ExtractFirst(a, at);
      ExtractFirst(a + b, at);
      assert (a + b)[n..] == a[n..] + b && (a + b)[..at] == a[..at];
      ExtractAppend(a[n..], b);
    } else {
      ExtractNone(a);
    }
  }

  // ----- one block -----

  function Lines(s: string): seq<string>
    decreases |s|
  {
    var k := LineEnd(s, 0);
    if k == |s| then [s] else [WithoutReturn(s[..k])] + Lines(s[k + 1..])
  }

  const DATA := "data:"

  /** The values of the data lines, in order. */
  function DataLines(lines: seq<string>): seq<string> {
    if lines == [] then []
    else
      (if DATA <= lines[0] then [TrimStart(lines[0][|DATA|..])] else []) + DataLines(lines[1..])
  }

  function JoinLines(lines: seq<string>): string {
    if lines == [] then "" else if |lines| == 1 then lines[0] else lines[0] + "\n" + JoinLines(lines[1..])
  }

  function BlockData(block: string): string {
    JoinLines(DataLines(Lines(block)))
  }

  /** The event payloads of the blocks up to the first block that is refused. `accepts` stands
      for JSON parsing and the shape check, and may refuse any payload; an empty one is refused. */
  function Payloads(blocks: seq<string>, accepts: string -> bool): (seq<string>, bool) {
    if blocks == [] then ([], false)
    else
      var data := BlockData(blocks[0]);
      if data == "" || !accepts(data) then ([], true)
      else
        var (rest, failed) := Payloads(blocks[1..], accepts);
        ([data] + rest, failed)
  }

  /** What a client that sees the whole text at once reads from it. */
  function ReadWhole(text: string, accepts: string -> bool): (seq<string>, bool) {
    var (blocks, rest) := Extract(text);
    Payloads(if Trim(rest) == "" then blocks else blocks + [rest], accepts)
  }

  lemma {:induction false} PayloadsAppend(a: seq<string>, b: seq<string>, accepts: string -> bool)
    ensures var (events, failed) := Payloads(a, accepts);
            var (more, broke) := Payloads(b, accepts);
            Payloads(a + b, accepts) == if failed then (events, true) else (events + more, broke)
  {
    if a == [] {
      assert a + b == b;
      assert [] + Payloads(b, accepts).0 == Payloads(b, accepts).0;
    } else {
      assert (a + b)[0] == a[0] && (a + b)[1..] == a[1..] + b;
      PayloadsAppend(a[1..], b, accepts);
      var data := BlockData(a[0]);
      var rest, more := Payloads(a[1..], accepts).0, Payloads(b, accepts).0;
      assert [data] + (rest + more) == ([data] + rest) + more;
    }
  }

  /** The incremental parser. However the text is cut into chunks, even inside a separator, it
      yields exactly what reading the whole text yields, and fails exactly when that fails. */
  method ParseAgentEventStream(chunks: seq<string>, accepts: string -> bool) returns (events: seq<string>, failed: bool)
    ensures (events, failed) == ReadWhole(Flatten(chunks), accepts)
  {
    events, failed := [], false;
    var buffer := "";
    ghost var done: seq<string> := [];
    var i := 0;
    assert chunks[..0] == [] && Flatten(chunks[..0]) == "";
    while i < |chunks|
      invariant 0 <= i <= |chunks|
      invariant Extract(Flatten(chunks[..i])) == (done, buffer)
      invariant !failed && Payloads(done, accepts) == (events, false)
    {
      assert chunks[..i + 1] == chunks[..i] + [chunks[i]];
      FlattenAppend(chunks[..i], [chunks[i]]);
      assert Flatten([chunks[i]]) == chunks[i];
      ExtractAppend(Flatten(chunks[..i]), chunks[i]);
      var (blocks, rest) := Extract(buffer + chunks[i]);
      buffer := rest;
      PayloadsAppend(done, blocks, accepts);
      var more, broke := YieldBlocks(blocks, accepts);
      events := events + more;
      done := done + blocks;
      i := i + 1;
      if broke {
        StopsForGood(chunks, i, done, accepts);
        return events, true;
      }
    }
    assert chunks[..i] == chunks;
    if Trim(buffer) != "" {
      PayloadsAppend(done, [buffer], accepts);
      var more, broke := YieldBlocks([buffer], accepts);
      events := events + more;
      failed := broke;
    }
  }

  lemma PayloadOne(block: string, accepts: string -> bool)
    ensures var data := BlockData(block);
            Payloads([block], accepts) == if data == "" || !accepts(data) then ([], true) else ([data], false)
  {
    var one: seq<string> := [block];
    assert one[1..] == [];
    assert [BlockData(block)] + [] == [BlockData(block)];
  }

  method YieldBlocks(blocks: seq<string>, accepts: string -> bool) returns (events: seq<string>, failed: bool)
    ensures (events, failed) == Payloads(blocks, accepts)
  {
    events, failed := [], false;
    var i := 0;
    assert blocks[..0] == [];
    while i < |blocks|
      invariant 0 <= i <= |blocks|
      invariant Payloads(blocks[..i], accepts) == (events, false)
    {
      assert blocks[..i + 1] == blocks[..i] + [blocks[i]];
      PayloadsAppend(blocks[..i], [blocks[i]], accepts);
      PayloadOne(blocks[i], accepts);
      var data := BlockData(blocks[i]);
      if data == "" || !accepts(data) {
        assert blocks == blocks[..i + 1] + blocks[i + 1..];
        assert events + [] == events;
        PayloadsAppend(blocks[..i + 1], blocks[i + 1..], accepts);
        return events, true;
      }
      events := events + [data];
      i := i + 1;
    }
    assert blocks[..i] == blocks;
  }

  /** After a refused block nothing that follows matters. */
  lemma StopsForGood(chunks: seq<string>, i: nat, done: seq<string>, accepts: string -> bool)
    requires i <= |chunks| && Extract(Flatten(chunks[..i])).0 == done && Payloads(done, accepts).1
    ensures ReadWhole(Flatten(chunks), accepts) == Payloads(done, accepts)
  {
    hide Extract;
    hide Payloads;
    hide Flatten;
    hide Trim;
    var a, b := Flatten(chunks[..i]), Flatten(chunks[i..]);
    assert chunks == chunks[..i] + chunks[i..];
    FlattenAppend(chunks[..i], chunks[i..]);
    ExtractAppend(a, b);
    var (blocks, rest) := Extract(a + b);
    var (more, end) := Extract(Extract(a).1 + b);
    assert blocks == done + more;
    PayloadsAppend(done, more, accepts);
    PayloadsAppend(done, more + [rest], accepts);
    assert blocks + [rest] == done + (more + [rest]);
  }

  // ----- what the events route writes -----

  /** A stored event: its JSON text holds no line break and starts with no space, and its type
      is a name without line breaks. */
  datatype Stored = Stored(sequence: nat, kind: string, terminal: bool, json: string)

  predicate OneLine(s: string) {
    forall c | c in s :: c != '\n' && c != '\r'
  }

  predicate Printable(e: Stored) {
    OneLine(e.kind) && OneLine(e.json) && e.json != "" && !IsSpace(e.json[0])
  }

  function Digits(n: nat): (s: string)
    ensures OneLine(s) && s != ""
  {
    var d := [('0' as int + n % 10) as char];
    if n < 10 then d else Digits(n / 10) + d
  }

  function IdLine(e: Stored): string { "id: " + Digits(e.sequence) }

  function EventLine(e: Stored): string { "event: " + e.kind }

  function DataLine(e: Stored): string { "data: " + e.json }

  function Body(e: Stored): string {
    IdLine(e) + "\n" + (EventLine(e) + "\n" + DataLine(e))
  }

  function Printed(e: Stored): string {
    Body(e) + "\n\n"
  }

  function PrintedAll(events: seq<Stored>): string {
    if events == [] then "" else Printed(events[0]) + PrintedAll(events[1..])
  }

  function Jsons(events: seq<Stored>): seq<string> {
    if events == [] then [] else [events[0].json] + Jsons(events[1..])
  }

  lemma LinesHead(line: string, rest: string)
    requires OneLine(line)
    ensures Lines(line + "\n" + rest) == [line] + Lines(rest)
  {
    var s := line + "\n" + rest;
    assert forall j :: 0 <= j < |line| ==> s[j] == line[j] && line[j] in line;
    assert s[|line|] == '\n';
    assert LineEnd(s, 0) == |line|;
    assert s[..|line|] == line && s[|line| + 1..] == rest;
    assert line != [] ==> Last(line) in line;
  }

  /** A carriage return in front of the line feed is not part of the line. */
  lemma LinesReturn(line: string, rest: string)
    requires OneLine(line)
    ensures Lines(line + "\r\n" + rest) == [line] + Lines(rest)
  {
    var s := line + "\r\n" + rest;
    assert forall j :: 0 <= j < |line| ==> s[j] == line[j] && line[j] in line;
    assert s[|line|] == '\r' && s[|line| + 1] == '\n';
    assert LineEnd(s, 0) == |line| + 1;
    assert s[..|line| + 1] == line + "\r" && s[|line| + 2..] == rest;
    assert (line + "\r")[..|line|] == line;
  }

  lemma LinesLast(line: string)
    requires OneLine(line)
    ensures Lines(line) == [line]
  {
    assert forall j :: 0 <= j < |line| ==> line[j] in line;
    assert LineEnd(line, 0) == |line|;
  }

  lemma DataOfThree(a: string, b: string, c: string)
    requires !(DATA <= a) && !(DATA <= b) && DATA <= c
    ensures DataLines([a, b, c]) == [TrimStart(c[|DATA|..])]
  {
    var one: seq<string> := [c];
    var two: seq<string> := [b, c];
    var three: seq<string> := [a, b, c];
    assert one[1..] == [] && two[1..] == one && three[1..] == two;
    assert DataLines(one) == [TrimStart(c[|DATA|..])];
  }

  lemma LineShapes(e: Stored)
    requires Printable(e)
    ensures OneLine(IdLine(e)) && OneLine(EventLine(e)) && OneLine(DataLine(e))
    ensures !(DATA <= IdLine(e)) && !(DATA <= EventLine(e)) && DATA <= DataLine(e)
    ensures IdLine(e) != "" && EventLine(e) != "" && TrimStart(DataLine(e)[|DATA|..]) == e.json
  {
    assert IdLine(e)[0] == 'i' && EventLine(e)[0] == 'e';
    var tail := DataLine(e)[|DATA|..];
    assert tail == " " + e.json && tail[1..] == e.json;
  }

  lemma BodyData(e: Stored)
    requires Printable(e)
    ensures BlockData(Body(e)) == e.json
  {
    LineShapes(e);
    hide IdLine;
    hide EventLine;
    hide DataLine;
    hide OneLine;
    hide Lines;
    hide DataLines;
    var a, b, c := IdLine(e), EventLine(e), DataLine(e);
    LinesHead(a, b + "\n" + c);
    LinesHead(b, c);
    LinesLast(c);
    assert [a] + ([b] + [c]) == [a, b, c];
    DataOfThree(a, b, c);
  }

  lemma BodyBreaks(e: Stored, j: nat)
    requires Printable(e) && j < |Body(e)|
    ensures Body(e)[j] != '\r' && (Body(e)[j] == '\n' ==> j + 1 < |Body(e)| && Body(e)[j + 1] != '\n')
  {
    LineShapes(e);
    hide IdLine;
    hide EventLine;
    hide DataLine;
    var a, b, c := IdLine(e), EventLine(e), DataLine(e);
    var s := Body(e);
    if j < |a| {
      assert s[j] == a[j] && a[j] in a;
    } else if j == |a| {
      assert s[j + 1] == b[0] && b[0] in b;
    } else if j < |a| + 1 + |b| {
      assert s[j] == b[j - |a| - 1] && b[j - |a| - 1] in b;
    } else if j == |a| + 1 + |b| {
      assert s[j + 1] == c[0] && c[0] in c;
    } else {
      assert s[j] == c[j - |a| - 2 - |b|] && c[j - |a| - 2 - |b|] in c;
    }
  }

  /** The printed event followed by anything: its text has no separator before its end. */
  lemma PrintedText(e: Stored, rest: string)
    requires Printable(e)
    ensures var s := Printed(e) + rest;
            var n := |Body(e)|;
            n + 1 < |s| && s[..n] == Body(e) && s[n] == '\n' && s[n + 1] == '\n' && s[n + 2..] == rest
            && forall j :: 0 <= j < n ==> s[j] != '\r' && (s[j] == '\n' ==> s[j + 1] != '\n' && s[j + 1] != '\r')
  {
    var body := Body(e);
    var s := Printed(e) + rest;
    var n := |body|;
    assert s == body + "\n\n" + rest;
    forall j | 0 <= j < n
      ensures s[j] != '\r' && (s[j] == '\n' ==> s[j + 1] != '\n' && s[j + 1] != '\r')
    {
      BodyBreaks(e, j);
      assert s[j] == body[j];
      if j + 1 < n {
        BodyBreaks(e, j + 1);
        assert s[j + 1] == body[j + 1];
      }
    }
  }

  lemma FirstSeparator(s: string, n: nat)
    requires n + 1 < |s| && s[n] == '\n' && s[n + 1] == '\n'
    requires forall j :: 0 <= j < n ==> s[j] != '\r' && (s[j] == '\n' ==> s[j + 1] != '\n' && s[j + 1] != '\r')
    ensures FindBoundary(s, 0) == n && BoundaryAt(s, n) == 2
  {
    assert BoundaryAt(s, n) == 2;
    forall i | 0 <= i < n
      ensures BoundaryAt(s, i) == 0
    {
    }
  }

  lemma PrintedBlock(e: Stored, rest: string)
    requires Printable(e)
    ensures Extract(Printed(e) + rest) == ([Body(e)] + Extract(rest).0, Extract(rest).1)
  {
    PrintedText(e, rest);
    FirstSeparator(Printed(e) + rest, |Body(e)|);
    ExtractFirst(Printed(e) + rest, |Body(e)|);
  }

  lemma {:induction false} PrintedBlocks(events: seq<Stored>, accepts: string -> bool)
    requires forall e | e in events :: Printable(e) && accepts(e.json)
    ensures Extract(PrintedAll(events)).1 == "" && Payloads(Extract(PrintedAll(events)).0, accepts) == (Jsons(events), false)
  {
    if events != [] {
      var e := events[0];
      assert e in events;
      PrintedBlocks(events[1..], accepts);
      PrintedBlock(e, PrintedAll(events[1..]));
      BodyData(e);
      var more := Extract(PrintedAll(events[1..])).0;
      assert ([Body(e)] + more)[1..] == more;
    }
  }

  /** Data lines are joined by line feeds: each pair of neighbours by one, and nothing at the ends. */
  lemma {:induction false} JoinedApart(a: seq<string>, b: seq<string>)
    requires a != [] && b != []
    ensures JoinLines(a + b) == JoinLines(a) + "\n" + JoinLines(b)
    ensures |a| == 1 ==> JoinLines(a) == a[0]
  {
    assert (a + b)[0] == a[0] && (a + b)[1..] == a[1..] + b;
    if |a| == 1 {
      assert a[1..] + b == b;
    } else {
      JoinedApart(a[1..], b);
    }
  }

  lemma BodyHasNoSeparator(e: Stored)
    requires Printable(e)
    ensures Extract(Body(e)) == ([], Body(e)) && Trim(Body(e)) != ""
  {
    LineShapes(e);
    var s := Body(e);
    assert s[0] == 'i';
    hide Body;
    TrimKeeps(s);
    forall i | 0 <= i < |s|
      ensures BoundaryAt(s, i) == 0
    {
      BodyBreaks(e, i);
      if i + 1 < |s| {
        BodyBreaks(e, i + 1);
      }
    }
    assert FindBoundary(s, 0) == |s|;
    ExtractNone(s);
  }

  lemma TrimKeeps(s: string)
    requires s != "" && !IsSpace(s[0])
    ensures Trim(s) != ""
  {
    assert TrimStart(s) == s;
    var end := TrimEnd(s);
    if end == "" {
      TrimEndKeeps(s);
    }
  }

  lemma {:induction false} TrimEndKeeps(s: string)
    requires s != "" && !IsSpace(s[0])
    ensures TrimEnd(s) != ""
  {
    if |s| > 1 && IsSpace(s[|s| - 1]) {
      TrimEndKeeps(s[..|s| - 1]);
    }
  }

  /** An event whose closing blank line never came is read as well. */
  lemma ReadsUnfinished(events: seq<Stored>, last: Stored, accepts: string -> bool)
    requires forall e | e in events :: Printable(e) && accepts(e.json)
    requires Printable(last) && accepts(last.json)
    ensures ReadWhole(PrintedAll(events) + Body(last), accepts) == (Jsons(events) + [last.json], false)
  {
    hide Extract;
    hide Payloads;
    hide PrintedAll;
    hide Jsons;
    hide Body;
    hide Trim;
    PrintedBlocks(events, accepts);
    BodyHasNoSeparator(last);
    BodyData(last);
    var blocks := Extract(PrintedAll(events)).0;
    ExtractAppend(PrintedAll(events), Body(last));
    assert "" + Body(last) == Body(last);
    assert blocks + [] == blocks;
    PayloadOne(Body(last), accepts);
    PayloadsAppend(blocks, [Body(last)], accepts);
  }

  /** The number that a text of decimal digits stands for. */
  function ValueOf(digits: string): int {
    if digits == "" then 0 else 10 * ValueOf(digits[..|digits| - 1]) + (Last(digits) as int - '0' as int)
  }

  lemma {:induction false} DigitsExactly(n: nat)
    ensures ValueOf(Digits(n)) == n
  {
    var last := [('0' as int + n % 10) as char];
    if n >= 10 {
      DigitsExactly(n / 10);
      assert (Digits(n / 10) + last)[..|Digits(n / 10)|] == Digits(n / 10);
    } else {
      assert last[..0] == "";
    }
  }

  lemma Together(a: string, b: string, c: string, d: string, e: string, f: string, g: string)
    ensures (a + b) + "\n" + ((c + d) + "\n" + (e + f)) + g == a + b + ("\n" + c) + d + ("\n" + e) + f + g
  {
  }

  /** The text of an event: its number, its type and its data, a line each, and a blank line. */
  lemma PrintedExactly(e: Stored)
    ensures Printed(e) == "id: " + Digits(e.sequence) + "\nevent: " + e.kind + "\ndata: " + e.json + "\n\n"
  {
    Together("id: ", Digits(e.sequence), "event: ", e.kind, "data: ", e.json, "\n\n");
    assert "\nevent: " == "\n" + "event: " && "\ndata: " == "\n" + "data: ";
  }

  /** Round trip: reading what the route writes returns the written events, in order, once each. */
  lemma ReadsWhatWasWritten(events: seq<Stored>, accepts: string -> bool)
    requires forall e | e in events :: Printable(e) && accepts(e.json)
    ensures ReadWhole(PrintedAll(events), accepts) == (Jsons(events), false)
  {
    PrintedBlocks(events, accepts);
  }

  // ----- which events the route writes -----

  /** Sequence numbers are 1, 2, 3, … continuing from `from`. */
  predicate Gapless(events: seq<Stored>, from: nat) {
    forall i :: 0 <= i < |events| ==> events[i].sequence == from + i + 1
  }

  function Above(events: seq<Stored>, after: nat): seq<Stored> {
    if events == [] then []
    else (if events[0].sequence > after then [events[0]] else []) + Above(events[1..], after)
  }

  /** Live events up to and including the first terminal one, after which delivery ends. */
  function UntilTerminal(events: seq<Stored>): seq<Stored> {
    if events == [] then []
    else if events[0].terminal then [events[0]]
    else [events[0]] + UntilTerminal(events[1..])
  }

  /** The page of stored events the replay reads. */
  function Replay(stored: seq<Stored>, after: nat): seq<Stored> {
    Above(stored, after)[..Min(|Above(stored, after)|, EVENT_READ_LIMIT)]
  }

  /** What the route sends: one page of the backlog and, while the run goes on, live events. */
  function Sent(stored: seq<Stored>, live: seq<Stored>, after: nat, over: bool): seq<Stored> {
    Replay(stored, after) + (if over then [] else Above(UntilTerminal(live), after))
  }

  /** The events above the client's position, up to the first live terminal one. */
  function Wanted(stored: seq<Stored>, live: seq<Stored>, after: nat, over: bool): seq<Stored> {
    Above(stored, after) + (if over then [] else Above(UntilTerminal(live), after))
  }

  lemma {:induction false} AboveGapless(events: seq<Stored>, from: nat, after: nat)
    requires Gapless(events, from)
    ensures var skip := Max(0, Min(|events|, after - from));
            Above(events, after) == events[skip..]
  {
    if events != [] {
      assert Gapless(events[1..], from + 1) by {
        assert forall i :: 0 <= i < |events[1..]| ==> events[1..][i] == events[i + 1];
      }
      AboveGapless(events[1..], from + 1, after);
      var skip := Max(0, Min(|events|, after - from));
      if events[0].sequence > after {
        assert [events[0]] + events[1..] == events;
      } else {
        assert events[1..][skip - 1..] == events[skip..];
      }
    }
  }

  lemma {:induction false} UntilTerminalPrefix(events: seq<Stored>)
    ensures UntilTerminal(events) <= events
  {
    if events != [] && !events[0].terminal {
      UntilTerminalPrefix(events[1..]);
      assert events == [events[0]] + events[1..];
    }
  }

  predicate Rising(page: seq<Stored>, after: nat) {
    (forall i :: 0 <= i < |page| ==> page[i].sequence > after)
    && forall i, j :: 0 <= i < j < |page| ==> page[i].sequence < page[j].sequence
  }

  /** Sends a page of events whose sequence numbers increase beyond `after`. */
  method SendPage(page: seq<Stored>, after: nat) returns (sent: seq<Stored>, last: nat)
    requires Rising(page, after)
    ensures sent == page && last == if page == [] then after else Last(page).sequence
  {
    last := after;
    sent := [];
    var i := 0;
    while i < |page|
      invariant 0 <= i <= |page| && sent == page[..i]
      invariant last == if i == 0 then after else page[i - 1].sequence
    {
      if page[i].sequence > last {
        last := page[i].sequence;
        sent := sent + [page[i]];
      }
      assert page[..i + 1] == page[..i] + [page[i]];
      i := i + 1;
    }
    assert page[..i] == page;
  }

  lemma PageIncreases(stored: seq<Stored>, after: nat)
    requires Gapless(stored, 0)
    ensures var page := Replay(stored, after);
            Rising(page, after) && (page != [] ==> after < Last(page).sequence <= |stored|)
  {
    hide Above;
    AboveGapless(stored, 0, after);
    var all := Above(stored, after);
    var skip := |stored| - |all|;
    assert forall i :: 0 <= i < |all| ==> all[i] == stored[skip + i];
  }

  lemma {:induction false} AboveBoth(live: seq<Stored>, from: nat, a: nat, b: nat)
    requires Gapless(live, from) && (a == b || (a <= from && b <= from))
    ensures Above(UntilTerminal(live), a) == Above(UntilTerminal(live), b)
  {
    if live != [] && !live[0].terminal {
      assert Gapless(live[1..], from + 1) by {
        assert forall i :: 0 <= i < |live[1..]| ==> live[1..][i] == live[i + 1];
      }
      AboveBoth(live[1..], from + 1, a, b);
    }
  }

  lemma DeliveredExactly(stored: seq<Stored>, live: seq<Stored>, after: nat, over: bool)
    ensures Sent(stored, live, after, over) == Wanted(stored, live, after, over) <==>
            |Above(stored, after)| <= EVENT_READ_LIMIT
    ensures Sent(stored, live, after, over) != Wanted(stored, live, after, over) ==>
            |Sent(stored, live, after, over)| < |Wanted(stored, live, after, over)|
  {
    var all := Above(stored, after);
    if |all| <= EVENT_READ_LIMIT {
      assert all[..|all|] == all;
    } else {
      assert |Replay(stored, after)| < |all|;
    }
  }

  lemma {:induction false} AboveAmong(events: seq<Stored>, after: nat)
    ensures forall e | e in Above(events, after) :: e in events
  {
    if events != [] {
      AboveAmong(events[1..], after);
      assert forall e | e in events[1..] :: e in events;
    }
  }

  lemma SentAmong(stored: seq<Stored>, live: seq<Stored>, after: nat, over: bool)
    ensures forall e | e in Sent(stored, live, after, over) :: e in stored || e in live
  {
    hide Above;
    hide UntilTerminal;
    AboveAmong(stored, after);
    AboveAmong(UntilTerminal(live), after);
    UntilTerminalPrefix(live);
    assert forall e | e in Replay(stored, after) :: e in Above(stored, after);
  }

  lemma {:induction false} JsonsLength(events: seq<Stored>)
    ensures |Jsons(events)| == |events|
  {
    if events != [] {
      JsonsLength(events[1..]);
    }
  }

  // ----- which events these are -----

  /** The i-th live event, with no terminal one before it. */
  predicate Reached(live: seq<Stored>, i: int) {
    0 <= i < |live| && forall j :: 0 <= j < i ==> !live[j].terminal
  }

  /** The event is live, stands above the position, and no terminal event comes before it. */
  ghost predicate LiveAbove(live: seq<Stored>, after: nat, e: Stored) {
    e.sequence > after && exists i :: Reached(live, i) && live[i] == e
  }

  lemma {:induction false} AboveMembers(events: seq<Stored>, after: nat, e: Stored)
    ensures e in Above(events, after) <==> e in events && e.sequence > after
  {
    if events != [] {
      AboveMembers(events[1..], after, e);
      assert events == [events[0]] + events[1..];
    }
  }

  lemma {:induction false} UntilTerminalAt(events: seq<Stored>, i: nat)
    ensures i < |UntilTerminal(events)| <==> Reached(events, i)
    ensures i < |UntilTerminal(events)| ==> UntilTerminal(events)[i] == events[i]
  {
    if events != [] && i > 0 {
      if events[0].terminal {
        assert !Reached(events, i);
      } else {
        UntilTerminalAt(events[1..], i - 1);
        assert forall j :: 0 <= j < |events| - 1 ==> events[1..][j] == events[j + 1];
        if Reached(events[1..], i - 1) {
          assert forall j :: 0 < j < i ==> events[j] == events[1..][j - 1];
        }
        if Reached(events, i) {
          assert forall j :: 0 <= j < i - 1 ==> events[1..][j] == events[j + 1];
        }
      }
    }
  }

  lemma LiveMembers(live: seq<Stored>, after: nat, e: Stored)
    ensures e in Above(UntilTerminal(live), after) <==> LiveAbove(live, after, e)
  {
    AboveMembers(UntilTerminal(live), after, e);
    forall i: nat
      ensures i < |UntilTerminal(live)| <==> Reached(live, i)
      ensures i < |UntilTerminal(live)| ==> UntilTerminal(live)[i] == live[i]
    {
      UntilTerminalAt(live, i);
    }
    hide UntilTerminal;
    hide Above;
    hide Reached;
    if LiveAbove(live, after, e) {
      var i: nat :| Reached(live, i) && live[i] == e;
      assert UntilTerminal(live)[i] == e;
    }
  }

  lemma {:induction false} AboveRises(events: seq<Stored>, from: nat, after: nat)
    requires Gapless(events, from)
    ensures Rising(Above(events, after), Max(from, after))
  {
    AboveGapless(events, from, after);
    var all := Above(events, after);
    var skip := |events| - |all|;
    assert forall i :: 0 <= i < |all| ==> all[i] == events[skip + i];
  }

  lemma GaplessPrefix(live: seq<Stored>, from: nat)
    requires Gapless(live, from)
    ensures Gapless(UntilTerminal(live), from)
  {
    UntilTerminalPrefix(live);
  }

  lemma LiveExactly(live: seq<Stored>, from: nat, after: nat)
    requires Gapless(live, from)
    ensures var sent := Above(UntilTerminal(live), after);
            Rising(sent, after) && forall e :: e in sent <==> LiveAbove(live, after, e)
  {
    hide UntilTerminal;
    hide Above;
    hide LiveAbove;
    GaplessPrefix(live, from);
    AboveRises(UntilTerminal(live), from, after);
    forall e: Stored
      ensures e in Above(UntilTerminal(live), after) <==> LiveAbove(live, after, e)
    {
      LiveMembers(live, after, e);
    }
  }

  /** Delivers the live events above the position, up to and including the first terminal one. */
  method SendLive(live: seq<Stored>, from: nat, after: nat) returns (sent: seq<Stored>)
    requires Gapless(live, from)
    ensures sent == Above(UntilTerminal(live), after)
    ensures Rising(sent, after) && forall e :: e in sent <==> LiveAbove(live, after, e)
  {
    hide LiveAbove;
    hide Rising;
    LiveExactly(live, from, after);
    sent := [];
    var last := after;
    var i := 0;
    assert live[0..] == live;
    while i < |live|
      invariant 0 <= i <= |live|
      invariant sent + Above(UntilTerminal(live[i..]), after) == Above(UntilTerminal(live), after)
      invariant last == after || (last == from + i && last >= after)
      invariant i > 0 && last == after ==> from + i <= after
    {
      assert live[i..][0] == live[i] && live[i..][1..] == live[i + 1..];
      assert live[i].sequence == from + i + 1;
      ghost var rest := UntilTerminal(live[i..]);
      assert rest[0] == live[i];
      if live[i].sequence > last {
        last := live[i].sequence;
        sent := sent + [live[i]];
      }
      if live[i].terminal {
        assert Above(rest[1..], after) == [];
        assert sent == Above(UntilTerminal(live), after);
        return;
      }
      assert rest[1..] == UntilTerminal(live[i + 1..]);
      i := i + 1;
    }
  }

  /** What the client is sent: each event once and in order, of the stored ones the first thousand
      above its position, and unless the run is over the live ones that no terminal one precedes. */
  ghost predicate IsSent(sent: seq<Stored>, stored: seq<Stored>, live: seq<Stored>, after: nat, over: bool) {
    Rising(sent, after)
    && forall e :: e in sent <==>
         (e in stored && after < e.sequence <= after + 1000) || (!over && LiveAbove(live, after, e))
  }

  /** What the client is to receive: the same, but all the stored events above its position. */
  ghost predicate IsWanted(wanted: seq<Stored>, stored: seq<Stored>, live: seq<Stored>, after: nat, over: bool) {
    Rising(wanted, after)
    && forall e :: e in wanted <==> (e in stored && e.sequence > after) || (!over && LiveAbove(live, after, e))
  }

  lemma {:induction false} RisingUnique(a: seq<Stored>, b: seq<Stored>, after: nat)
    requires Rising(a, after) && Rising(b, after) && forall e :: e in a <==> e in b
    ensures a == b
  {
    if a == [] {
      SomeMember(b);
    } else {
      assert a[0] in b;
      var i :| 0 <= i < |b| && b[i] == a[0];
      assert b[0] in a;
      var j :| 0 <= j < |a| && a[j] == b[0];
      assert i == 0 && j == 0;
      assert a == [a[0]] + a[1..] && b == [b[0]] + b[1..];
      forall e: Stored
        ensures e in a[1..] <==> e in b[1..]
      {
        TailMembers(a, after, e);
        TailMembers(b, after, e);
      }
      RisingUnique(a[1..], b[1..], after);
    }
  }

  lemma SomeMember(s: seq<Stored>)
    ensures s == [] || exists e :: e in s
  {
    if s != [] {
      assert s[0] in s;
    }
  }

  lemma TailMembers(a: seq<Stored>, after: nat, e: Stored)
    requires a != [] && Rising(a, after)
    ensures Rising(a[1..], after) && (e in a[1..] <==> e in a && e != a[0])
  {
    assert forall i :: 0 <= i < |a| - 1 ==> a[1..][i] == a[i + 1];
    if e in a && e != a[0] {
      var i :| 0 <= i < |a| && a[i] == e;
      assert a[1..][i - 1] == e;
    }
  }

  lemma RisingJoin(a: seq<Stored>, b: seq<Stored>, after: nat, middle: nat)
    requires Rising(a, after) && Rising(b, middle) && after <= middle
    requires forall e | e in a :: e.sequence <= middle
    ensures Rising(a + b, after)
  {
    var all := a + b;
    forall i, j | 0 <= i < j < |all|
      ensures all[i].sequence < all[j].sequence
    {
      if i < |a| <= j {
        assert a[i] in a;
      }
    }
  }

  lemma PageMembers(stored: seq<Stored>, after: nat, e: Stored)
    requires Gapless(stored, 0)
    ensures e in Replay(stored, after) <==> e in stored && after < e.sequence <= after + 1000
  {
    AboveGapless(stored, 0, after);
    var skip := Max(0, Min(|stored|, after));
    var page := Replay(stored, after);
    assert forall i :: 0 <= i < |page| ==> page[i] == stored[skip + i];
    if e in stored && after < e.sequence <= after + 1000 {
      var i :| 0 <= i < |stored| && stored[i] == e;
      assert page[i - skip] == e;
    }
  }

  lemma SentParts(stored: seq<Stored>, live: seq<Stored>, after: nat, over: bool)
    requires Gapless(stored, 0) && Gapless(live, |stored|)
    ensures Rising(Sent(stored, live, after, over), after) && Rising(Wanted(stored, live, after, over), after)
  {
    PageIncreases(stored, after);
    AboveRises(stored, 0, after);
    GaplessPrefix(live, |stored|);
    AboveRises(UntilTerminal(live), |stored|, after);
    hide Above;
    hide UntilTerminal;
    if !over {
      var tail := Above(UntilTerminal(live), after);
      forall e | e in Replay(stored, after) || e in Above(stored, after)
        ensures e.sequence <= Max(|stored|, after)
      {
        PageMembers(stored, after, e);
        AboveMembers(stored, after, e);
      }
      RisingJoin(Replay(stored, after), tail, after, Max(|stored|, after));
      RisingJoin(Above(stored, after), tail, after, Max(|stored|, after));
    } else {
      assert Replay(stored, after) + [] == Replay(stored, after);
      assert Above(stored, after) + [] == Above(stored, after);
    }
  }

  lemma SentExactly(stored: seq<Stored>, live: seq<Stored>, after: nat, over: bool)
    requires Gapless(stored, 0) && Gapless(live, |stored|)
    ensures IsSent(Sent(stored, live, after, over), stored, live, after, over)
    ensures IsWanted(Wanted(stored, live, after, over), stored, live, after, over)
  {
    SentParts(stored, live, after, over);
    hide Above;
    hide UntilTerminal;
    hide LiveAbove;
    hide Replay;
    hide Rising;
    forall e: Stored
      ensures e in Replay(stored, after) <==> e in stored && after < e.sequence <= after + 1000
      ensures e in Above(stored, after) <==> e in stored && e.sequence > after
      ensures e in Above(UntilTerminal(live), after) <==> LiveAbove(live, after, e)
    {
      PageMembers(stored, after, e);
      AboveMembers(stored, after, e);
      LiveMembers(live, after, e);
    }
  }

  lemma BacklogSize(stored: seq<Stored>, after: nat)
    requires Gapless(stored, 0)
    ensures |Above(stored, after)| == Max(0, |stored| - after)
  {
    AboveGapless(stored, 0, after);
  }

  /** Serves one client: replay the stored page, then deliver live events until the run ends.
      The client receives everything it asked for exactly when the backlog fits one page. */
  method ServeEvents(stored: seq<Stored>, live: seq<Stored>, after: nat, over: bool) returns (sent: seq<Stored>)
    requires Gapless(stored, 0) && Gapless(live, |stored|)
    ensures sent == Sent(stored, live, after, over)
    ensures IsSent(sent, stored, live, after, over)
    ensures IsWanted(sent, stored, live, after, over) <==> |stored| <= after + 1000
    ensures forall i :: !over && Reached(live, i) && live[i].terminal && live[i].sequence > after ==>
              sent != [] && Last(sent) == live[i]
  {
    PageIncreases(stored, after);
    var last;
    sent, last := SendPage(Replay(stored, after), after);
    if !over {
      AboveBoth(live, |stored|, last, after);
      var delivered := SendLive(live, |stored|, last);
      sent := sent + delivered;
    }
    CompleteExactly(stored, live, after, over);
    TerminalLast(stored, live, after);
  }

  lemma CompleteExactly(stored: seq<Stored>, live: seq<Stored>, after: nat, over: bool)
    requires Gapless(stored, 0) && Gapless(live, |stored|)
    ensures IsSent(Sent(stored, live, after, over), stored, live, after, over)
    ensures IsWanted(Sent(stored, live, after, over), stored, live, after, over) <==> |stored| <= after + 1000
  {
    hide Sent;
    hide Wanted;
    hide Above;
    hide LiveAbove;
    SentExactly(stored, live, after, over);
    DeliveredExactly(stored, live, after, over);
    BacklogSize(stored, after);
    if IsWanted(Sent(stored, live, after, over), stored, live, after, over) {
      RisingUnique(Sent(stored, live, after, over), Wanted(stored, live, after, over), after);
    }
  }

  /** While the run goes on, the terminal event that ends it is sent, and sent last. */
  lemma TerminalLast(stored: seq<Stored>, live: seq<Stored>, after: nat)
    requires Gapless(stored, 0) && Gapless(live, |stored|)
    ensures var sent := Sent(stored, live, after, false);
            forall i :: Reached(live, i) && live[i].terminal && live[i].sequence > after ==>
              sent != [] && Last(sent) == live[i]
  {
    var tail := Above(UntilTerminal(live), after);
    LiveExactly(live, |stored|, after);
    hide UntilTerminal;
    hide Above;
    forall i | Reached(live, i) && live[i].terminal && live[i].sequence > after
      ensures tail != [] && Last(tail) == live[i]
    {
      assert LiveAbove(live, after, live[i]) && live[i] in tail;
      var k :| 0 <= k < |tail| && tail[k] == live[i];
      assert Last(tail) in tail && LiveAbove(live, after, Last(tail));
      var m :| Reached(live, m) && live[m] == Last(tail);
      assert m <= i;
      assert tail[k].sequence <= Last(tail).sequence;
    }
  }

  /** From the store to the client. However the network cuts the written text into chunks, the
      client reads the payloads of the events that were sent, and these are all it is to receive
      exactly when no more than a thousand events are stored above its position. */
  lemma EndToEnd(stored: seq<Stored>, live: seq<Stored>, after: nat, over: bool,
                 sent: seq<Stored>, wanted: seq<Stored>, chunks: seq<string>, accepts: string -> bool)
    requires Gapless(stored, 0) && Gapless(live, |stored|)
    requires forall e | e in stored || e in live :: Printable(e) && accepts(e.json)
    requires IsSent(sent, stored, live, after, over) && IsWanted(wanted, stored, live, after, over)
    requires Flatten(chunks) == PrintedAll(sent)
    ensures ReadWhole(Flatten(chunks), accepts) == (Jsons(sent), false)
    ensures Jsons(sent) == Jsons(wanted) <==> |stored| <= after + 1000
  {
    hide ReadWhole;
    hide Sent;
    hide Wanted;
    hide PrintedAll;
    hide Flatten;
    hide Above;
    hide Jsons;
    hide LiveAbove;
    SentExactly(stored, live, after, over);
    RisingUnique(sent, Sent(stored, live, after, over), after);
    RisingUnique(wanted, Wanted(stored, live, after, over), after);
    SentAmong(stored, live, after, over);
    ReadsWhatWasWritten(sent, accepts);
    DeliveredExactly(stored, live, after, over);
    BacklogSize(stored, after);
    JsonsLength(sent);
    JsonsLength(wanted);
  }
}

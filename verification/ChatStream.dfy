/** The model adapter's event reader, which normalises line ends chunk by chunk. */
module ChatStreams {
  import opened Basics
  import EventStreams

  /** Replaces every carriage return followed by a line feed by the line feed alone. */
  function Unix(s: string): string
    decreases |s|
  {
    if s == "" then ""
    else if |s| > 1 && s[0] == '\r' && s[1] == '\n' then "\n" + Unix(s[2..])
    else [s[0]] + Unix(s[1..])
  }

  /** The pair is cut in two between `a` and `b`. */
  predicate CutsPair(a: string, b: string) {
    a != "" && b != "" && Last(a) == '\r' && b[0] == '\n'
  }

  predicate StartsPair(s: string) {
    |s| > 1 && s[0] == '\r' && s[1] == '\n'
  }

  lemma UnixPair(s: string)
    requires StartsPair(s)
    ensures Unix(s) == "\n" + Unix(s[2..])
  {
  }

  lemma UnixOne(s: string)
    requires s != "" && !StartsPair(s)
    ensures Unix(s) == [s[0]] + Unix(s[1..])
  {
  }

  lemma {:induction false} UnixAppend(a: string, b: string)
    ensures !CutsPair(a, b) ==> Unix(a + b) == Unix(a) + Unix(b)
    ensures CutsPair(a, b) ==> |Unix(a + b)| == |Unix(a)| + |Unix(b)| - 1
    decreases |a|
  {
    if a == "" {
      assert a + b == b;
    } else {
      hide Unix;
      if StartsPair(a) {
        UnixPair(a);
        UnixPair(a + b);
        assert (a + b)[2..] == a[2..] + b;
        UnixAppend(a[2..], b);
        assert Last(a) == if |a| == 2 then '\n' else Last(a[2..]);
      } else if |a| == 1 && CutsPair(a, b) {
        UnixPair(a + b);
        UnixOne(a);
        UnixOne(b);
        assert (a + b)[2..] == b[1..] && a[1..] == "";
        UnixEmpty();
      } else {
        UnixOne(a);
        UnixOne(a + b);
        assert (a + b)[1..] == a[1..] + b;
        UnixAppend(a[1..], b);
        assert |a| > 1 ==> Last(a) == Last(a[1..]);
        assert [a[0]] + (Unix(a[1..]) + Unix(b)) == [a[0]] + Unix(a[1..]) + Unix(b);
      }
    }
  }

  lemma UnixEmpty()
    ensures Unix("") == ""
  {
  }

  /** Every chunk normalised on its own. */
  function UnixChunks(chunks: seq<string>): string {
    if chunks == [] then "" else UnixChunks(chunks[..|chunks| - 1]) + Unix(Last(chunks))
  }

  /** No cut between chunks separates a carriage return from its line feed. */
  predicate CleanCuts(chunks: seq<string>) {
    chunks != [] ==>
      CleanCuts(chunks[..|chunks| - 1]) && !CutsPair(Flatten(chunks[..|chunks| - 1]), Last(chunks))
  }

  lemma FlattenLast(chunks: seq<string>)
    requires chunks != []
    ensures Flatten(chunks) == Flatten(chunks[..|chunks| - 1]) + Last(chunks)
  {
    assert chunks == chunks[..|chunks| - 1] + [Last(chunks)];
    FlattenAppend(chunks[..|chunks| - 1], [Last(chunks)]);
    assert Flatten([Last(chunks)]) == Last(chunks);
  }

  lemma {:induction false} ChunkedLength(chunks: seq<string>)
    ensures |UnixChunks(chunks)| >= |Unix(Flatten(chunks))|
    ensures |UnixChunks(chunks)| == |Unix(Flatten(chunks))| <==> CleanCuts(chunks)
    ensures CleanCuts(chunks) ==> UnixChunks(chunks) == Unix(Flatten(chunks))
  {
    if chunks != [] {
      var front := chunks[..|chunks| - 1];
      ChunkedLength(front);
      FlattenLast(chunks);
      UnixAppend(Flatten(front), Last(chunks));
    }
  }

  /** Normalising chunk by chunk equals normalising the whole text exactly when no cut falls
      inside a carriage-return line-feed pair. */
  lemma NormalisesExactly(chunks: seq<string>)
    ensures UnixChunks(chunks) == Unix(Flatten(chunks)) <==> CleanCuts(chunks)
  {
    ChunkedLength(chunks);
  }

  // ----- events -----

  /** The leftmost blank line at or after a position. */
  function FindBlank(s: string, i: nat): (at: nat)
    requires i <= |s|
    ensures i <= at <= |s|
    ensures at < |s| ==> at + 1 < |s| && s[at] == '\n' && s[at + 1] == '\n'
    ensures forall j :: i <= j < at && j + 1 < |s| ==> !(s[j] == '\n' && s[j + 1] == '\n')
    decreases |s| - i
  {
    if i == |s| then i
    else if i + 1 < |s| && s[i] == '\n' && s[i + 1] == '\n' then i
    else FindBlank(s, i + 1)
  }

  function Split(s: string): (seq<string>, string)
    decreases |s|
  {
    var at := FindBlank(s, 0);
    if at == |s| then ([], s)
    else
      var (blocks, rest) := Split(s[at + 2..]);
      ([s[..at]] + blocks, rest)
  }

  lemma BlankStays(a: string, b: string)
    requires FindBlank(a, 0) < |a|
    ensures FindBlank(a + b, 0) == FindBlank(a, 0)
  {
    var at := FindBlank(a, 0);
    var s := a + b;
    assert s[at] == '\n' && s[at + 1] == '\n';
    forall j | 0 <= j < at
      ensures !(s[j] == '\n' && s[j + 1] == '\n')
    {
      assert s[j] == a[j] && s[j + 1] == a[j + 1];
    }
  }

  lemma SplitFirst(s: string)
    requires FindBlank(s, 0) < |s|
    ensures Split(s).0 == [s[..FindBlank(s, 0)]] + Split(s[FindBlank(s, 0) + 2..]).0
    ensures Split(s).1 == Split(s[FindBlank(s, 0) + 2..]).1
  {
    hide FindBlank;
  }

  lemma SplitNone(s: string)
    requires FindBlank(s, 0) == |s|
    ensures Split(s) == ([], s)
  {
  }

  lemma {:induction false} SplitAppend(a: string, b: string)
    ensures Split(a + b).0 == Split(a).0 + Split(Split(a).1 + b).0
    ensures Split(a + b).1 == Split(Split(a).1 + b).1
    decreases |a|
  {
    hide Split;
    hide FindBlank;
    var at := FindBlank(a, 0);
    if at < |a| {
      BlankStays(a, b);
      SplitFirst(a);
      SplitFirst(a + b);
      assert (a + b)[at + 2..] == a[at + 2..] + b && (a + b)[..at] == a[..at];
      SplitAppend(a[at + 2..], b);
    } else {
      SplitNone(a);
    }
  }

  const DONE := "[DONE]"

  /** The payloads of complete events: empty ones and the closing marker are skipped. A payload
      that does not parse stops the reader. */
  function Payloads(blocks: seq<string>, parses: string -> bool): (seq<string>, bool) {
    if blocks == [] then ([], false)
    else
      var data := EventStreams.JoinLines(EventStreams.DataLines(PlainLines(blocks[0])));
      if data == "" || data == DONE then Payloads(blocks[1..], parses)
      else if !parses(data) then ([], true)
      else
        var (rest, failed) := Payloads(blocks[1..], parses);
        ([data] + rest, failed)
  }

  /** Lines are separated by line feeds only. */
  function PlainLines(s: string): seq<string>
    decreases |s|
  {
    var k := LineEnd(s, 0);
    if k == |s| then [s] else [s[..k]] + PlainLines(s[k + 1..])
  }

  /** The lines of an event: what stands before the first line feed, and the lines of the rest. */
  lemma PlainLinesExactly(line: string, rest: string)
    requires '\n' !in line
    ensures PlainLines(line) == [line] && PlainLines(line + "\n" + rest) == [line] + PlainLines(rest)
  {
    var s := line + "\n" + rest;
    assert forall j :: 0 <= j < |line| ==> s[j] == line[j] && line[j] in line;
    assert s[|line|] == '\n';
    assert LineEnd(line, 0) == |line| && LineEnd(s, 0) == |line|;
    assert s[..|line|] == line && s[|line| + 1..] == rest;
  }

  lemma {:induction false} PayloadsAppend(a: seq<string>, b: seq<string>, parses: string -> bool)
    ensures Payloads(a, parses).1 ==> Payloads(a + b, parses) == Payloads(a, parses)
    ensures !Payloads(a, parses).1 ==>
              Payloads(a + b, parses).0 == Payloads(a, parses).0 + Payloads(b, parses).0
              && Payloads(a + b, parses).1 == Payloads(b, parses).1
  {
    if a == [] {
      assert a + b == b;
    } else {
      assert (a + b)[0] == a[0] && (a + b)[1..] == a[1..] + b;
      PayloadsAppend(a[1..], b, parses);
    }
  }

  /** Takes the complete events out of the buffer. */
  method TakeEvents(buffer: string, parses: string -> bool) returns (events: seq<string>, rest: string, failed: bool)
    ensures (events, failed) == Payloads(Split(buffer).0, parses)
    ensures !failed ==> rest == Split(buffer).1
  {
    hide Split;
    hide FindBlank;
    hide PlainLines;
    hide Payloads;
    events, failed, rest := [], false, buffer;
    ghost var done: seq<string> := [];
    PayloadNone(parses);
    var boundary := FindBlank(rest, 0);
    while boundary < |rest|
      invariant boundary == FindBlank(rest, 0)
      invariant Split(buffer).0 == done + Split(rest).0 && Split(buffer).1 == Split(rest).1
      invariant Payloads(done, parses) == (events, false)
      decreases |rest|
    {
      SplitFirst(rest);
      var event := rest[..boundary];
      rest := rest[boundary + 2..];
      PayloadsAppend(done, [event], parses);
      PayloadOne(event, parses);
      var data := EventStreams.JoinLines(EventStreams.DataLines(PlainLines(event)));
      assert done + ([event] + Split(rest).0) == done + [event] + Split(rest).0;
      assert events + [] == events;
      done := done + [event];
      if data != "" && data != DONE {
        if !parses(data) {
          PayloadsAppend(done, Split(rest).0, parses);
          return events, rest, true;
        }
        events := events + [data];
      }
      boundary := FindBlank(rest, 0);
    }
    SplitNone(rest);
    assert done + [] == done;
  }

  lemma PayloadNone(parses: string -> bool)
    ensures Payloads([], parses) == ([], false)
  {
  }

  /** Reads a chunked stream; an event not closed by a blank line is dropped at the end. The
      result is that of reading the normalised chunks as one text, hence of reading the whole
      normalised text whenever the cuts are clean. */
  method ParseSseJson(chunks: seq<string>, parses: string -> bool) returns (events: seq<string>, failed: bool)
    ensures (events, failed) == Payloads(Split(UnixChunks(chunks)).0, parses)
    ensures CleanCuts(chunks) ==> (events, failed) == Payloads(Split(Unix(Flatten(chunks))).0, parses)
  {
    NormalisesExactly(chunks);
    SplitNone("");
    PayloadNone(parses);
    assert chunks[..0] == [];
    events, failed := [], false;
    var buffer := "";
    var i := 0;
    assert UnixChunks(chunks[..0]) == "";
    hide Split;
    hide FindBlank;
    hide Payloads;
    hide Unix;
    hide CleanCuts;
    while i < |chunks|
      invariant 0 <= i <= |chunks|
      invariant Split(UnixChunks(chunks[..i])).1 == buffer
      invariant Payloads(Split(UnixChunks(chunks[..i])).0, parses) == (events, false)
    {
      assert chunks[..i + 1][..i] == chunks[..i] && Last(chunks[..i + 1]) == chunks[i];
      ghost var done := Split(UnixChunks(chunks[..i])).0;
      SplitAppend(UnixChunks(chunks[..i]), Unix(chunks[i]));
      var joined := buffer + Unix(chunks[i]);
      var more, rest, broke := TakeEvents(joined, parses);
      PayloadsAppend(done, Split(joined).0, parses);
      i := i + 1;
      events := events + more;
      if broke {
        StopsForGood(chunks, i, parses);
        return events, true;
      }
      buffer := rest;
    }
    assert chunks[..i] == chunks;
  }

  lemma PayloadOne(block: string, parses: string -> bool)
    ensures var data := EventStreams.JoinLines(EventStreams.DataLines(PlainLines(block)));
            Payloads([block], parses) ==
            if data == "" || data == DONE then ([], false) else if !parses(data) then ([], true) else ([data], false)
  {
    var one: seq<string> := [block];
    assert one[1..] == [];
    var data := EventStreams.JoinLines(EventStreams.DataLines(PlainLines(block)));
    assert [data] + [] == [data];
  }

  lemma {:induction false} UnixChunksAppend(a: seq<string>, b: seq<string>)
    ensures UnixChunks(a + b) == UnixChunks(a) + UnixChunks(b)
  {
    if b == [] {
      assert a + b == a;
    } else {
      assert (a + b)[..|a + b| - 1] == a + b[..|b| - 1];
      UnixChunksAppend(a, b[..|b| - 1]);
    }
  }

  lemma StopsForGood(chunks: seq<string>, i: nat, parses: string -> bool)
    requires i <= |chunks| && Payloads(Split(UnixChunks(chunks[..i])).0, parses).1
    ensures Payloads(Split(UnixChunks(chunks)).0, parses) == Payloads(Split(UnixChunks(chunks[..i])).0, parses)
  {
    hide Split;
    hide UnixChunks;
    hide Payloads;
    assert chunks == chunks[..i] + chunks[i..];
    UnixChunksAppend(chunks[..i], chunks[i..]);
    SplitAppend(UnixChunks(chunks[..i]), UnixChunks(chunks[i..]));
    PayloadsAppend(Split(UnixChunks(chunks[..i])).0,
                   Split(Split(UnixChunks(chunks[..i])).1 + UnixChunks(chunks[i..])).0, parses);
  }

  lemma {:induction false} NoReturns(s: string)
    requires forall c | c in s :: c != '\r'
    ensures Unix(s) == s
  {
    if s != "" {
      assert s[0] in s;
      assert forall c | c in s[1..] :: c in s;
      NoReturns(s[1..]);
    }
  }

  const OPENING := "data: 1"
  const FIRST_CUT := OPENING + "\r\n\r"
  const SECOND_CUT := "\n"

  lemma CutNormalised()
    ensures Unix(FIRST_CUT) + Unix(SECOND_CUT) == OPENING + "\n\r\n"
    ensures Unix(FIRST_CUT + SECOND_CUT) == OPENING + "\n\n"
  {
    ShortTexts();
    NoReturns(OPENING);
    hide Unix;
    UnixAppend(OPENING, "\r\n\r");
    UnixAppend(OPENING, "\r\n\r\n");
    assert FIRST_CUT + SECOND_CUT == OPENING + "\r\n\r\n";
  }

  lemma ShortTexts()
    ensures Unix("\r\n\r") == "\n\r" && Unix("\r\n\r\n") == "\n\n" && Unix("\n") == "\n"
  {
    UnixPair("\r\n\r");
    UnixPair("\r\n\r\n");
    assert "\r\n\r"[2..] == "\r" && "\r\n\r\n"[2..] == "\r\n";
    UnixPair("\r\n");
    assert "\r\n"[2..] == "";
  }

  lemma OpeningPayload()
    ensures Payloads([OPENING], (s: string) => true) == (["1"], false)
  {
    PayloadOne(OPENING, (s: string) => true);
    var lines: seq<string> := [OPENING];
    assert PlainLines(OPENING) == lines && lines[1..] == [];
    var tail := OPENING[|EventStreams.DATA|..];
    assert tail == " 1" && tail[1..] == "1";
    assert TrimStart(tail) == "1";
    assert EventStreams.DataLines(lines) == ["1"];
  }

  lemma CutSplit()
    ensures Split(OPENING + "\n\r\n").0 == []
  {
    SplitNone(OPENING + "\n\r\n");
  }

  lemma WholeSplit()
    ensures Split(OPENING + "\n\n").0 == [OPENING]
  {
    var whole := OPENING + "\n\n";
    assert whole[|OPENING|] == '\n' && whole[|OPENING| + 1] == '\n';
    assert forall j :: 0 <= j < |OPENING| ==> whole[j] == OPENING[j] && OPENING[j] != '\n';
    assert FindBlank(whole, 0) == |OPENING|;
    SplitFirst(whole);
    assert whole[..|OPENING|] == OPENING && whole[|OPENING| + 2..] == "";
    SplitNone("");
  }

  lemma TwoChunks(a: string, b: string)
    ensures Flatten([a, b]) == a + b && UnixChunks([a, b]) == Unix(a) + Unix(b)
    ensures CutsPair(a, b) ==> !CleanCuts([a, b])
  {
    hide Unix;
    var chunks: seq<string> := [a, b];
    assert chunks[..1] == [a] && chunks[..1][..0] == [];
    FlattenLast(chunks);
    FlattenLast(chunks[..1]);
    assert UnixChunks(chunks[..1]) == "" + Unix(a);
  }

  /** A cut inside the pair loses an event: the same text read whole has it. */
  lemma CutPairLosesEvent()
    ensures var chunks := [FIRST_CUT, SECOND_CUT];
            !CleanCuts(chunks)
            && Payloads(Split(UnixChunks(chunks)).0, (s: string) => true) == ([], false)
            && Payloads(Split(Unix(Flatten(chunks))).0, (s: string) => true) == (["1"], false)
  {
    hide Unix;
    hide Split;
    hide Payloads;
    hide UnixChunks;
    hide CleanCuts;
    hide Flatten;
    TwoChunks(FIRST_CUT, SECOND_CUT);
    assert CutsPair(FIRST_CUT, SECOND_CUT);
    CutNormalised();
    CutSplit();
    WholeSplit();
    OpeningPayload();
    PayloadNone((s: string) => true);
  }

  // ----- exactly when the events are those of the whole text -----

  /** The text that splits into these events and this rest. */
  function Unsplit(blocks: seq<string>, rest: string): string {
    if blocks == [] then rest else blocks[0] + "\n\n" + Unsplit(blocks[1..], rest)
  }

  lemma {:induction false} UnsplitSplit(s: string)
    ensures Unsplit(Split(s).0, Split(s).1) == s
    decreases |s|
  {
    hide Split;
    hide FindBlank;
    var at := FindBlank(s, 0);
    if at < |s| {
      SplitFirst(s);
      UnsplitSplit(s[at + 2..]);
      var more := Split(s[at + 2..]).0;
      assert ([s[..at]] + more)[1..] == more;
      assert s == s[..at] + "\n\n" + s[at + 2..];
    } else {
      SplitNone(s);
    }
  }

  /** The events and the unfinished rest are those of the whole text exactly when no cut
      separates a carriage return from its line feed. */
  lemma EventsExactly(chunks: seq<string>)
    ensures Split(UnixChunks(chunks)) == Split(Unix(Flatten(chunks))) <==> CleanCuts(chunks)
  {
    hide Split;
    hide Unsplit;
    hide Unix;
    hide CleanCuts;
    UnsplitSplit(UnixChunks(chunks));
    UnsplitSplit(Unix(Flatten(chunks)));
    NormalisesExactly(chunks);
  }

  // ----- how many events are lost -----

  function Blanks(s: string): nat {
    |Split(s).0|
  }

  /** The number of line feeds a text begins with. */
  function LeadingFeeds(s: string): nat {
    if s == "" || s[0] != '\n' then 0 else 1 + LeadingFeeds(s[1..])
  }

  predicate EndsInFeed(s: string) {
    s != "" && Last(s) == '\n'
  }

  /** A cut inside a pair costs an event when the unfinished text held before it ends in a line
      feed, so that the pair was to complete a blank line, and the line feeds that follow the cut,
      this pair's included, are odd in number, so that they do not make up for it. */
  predicate CostsEvent(held: string, following: string) {
    EndsInFeed(held) && LeadingFeeds(following) % 2 == 1
  }

  /** What the reader holds just before the carriage return that ends the i-th chunk. */
  function HeldBefore(chunks: seq<string>, i: nat): string
    requires i < |chunks| && chunks[i] != ""
  {
    Split(UnixChunks(chunks[..i]) + Unix(chunks[i][..|chunks[i]| - 1])).1
  }

  /** The cut after the i-th chunk separates a pair and costs an event. */
  predicate LosingCut(chunks: seq<string>, i: nat)
    requires i < |chunks|
  {
    var rest := Flatten(chunks[i + 1..]);
    CutsPair(chunks[i], rest) && CostsEvent(HeldBefore(chunks, i), Unix(rest))
  }

  function LosingCuts(chunks: seq<string>, from: nat): nat
    requires from <= |chunks|
    decreases |chunks| - from
  {
    if from == |chunks| then 0 else (if LosingCut(chunks, from) then 1 else 0) + LosingCuts(chunks, from + 1)
  }

  lemma BlankAfter(p: string, y: string)
    requires FindBlank(p, 0) == |p| && (EndsInFeed(p) ==> y == "" || y[0] != '\n')
    ensures FindBlank(p + y, 0) == |p| + FindBlank(y, 0)
  {
    var s := p + y;
    var at := FindBlank(y, 0);
    forall j | 0 <= j < |p| + at && j + 1 < |s|
      ensures !(s[j] == '\n' && s[j + 1] == '\n')
    {
      if j + 1 < |p| {
        assert s[j] == p[j] && s[j + 1] == p[j + 1];
      } else if j + 1 == |p| {
        assert s[j] == Last(p) && s[j + 1] == y[0];
      } else {
        assert s[j] == y[j - |p|] && s[j + 1] == y[j + 1 - |p|];
      }
    }
    if at < |y| {
      assert s[|p| + at] == y[at] && s[|p| + at + 1] == y[at + 1];
    }
  }

  /** Text in which no blank line begins does not change the number of events after it. */
  lemma PrefixCounts(p: string, y: string)
    requires FindBlank(p, 0) == |p| && (EndsInFeed(p) ==> y == "" || y[0] != '\n')
    ensures Blanks(p + y) == Blanks(y)
  {
    hide Split;
    hide FindBlank;
    var at := FindBlank(y, 0);
    BlankAfter(p, y);
    if at < |y| {
      SplitFirst(y);
      SplitFirst(p + y);
      assert (p + y)[|p| + at + 2..] == y[at + 2..];
    } else {
      SplitNone(y);
      SplitNone(p + y);
    }
  }

  lemma NoBlankIn(s: string)
    requires forall j :: 0 <= j && j + 1 < |s| ==> !(s[j] == '\n' && s[j + 1] == '\n')
    ensures FindBlank(s, 0) == |s|
  {
  }

  lemma PairCounts(y: string)
    requires |y| >= 2 && y[0] == '\n' && y[1] == '\n'
    ensures Blanks(y) == 1 + Blanks(y[2..])
  {
    hide Split;
    assert FindBlank(y, 0) == 0;
    SplitFirst(y);
  }

  /** Dropping one of an odd number of leading line feeds costs no event, one of an even number does. */
  lemma {:induction false} FeedCounts(y: string)
    requires y != "" && y[0] == '\n'
    ensures Blanks(y) == Blanks(y[1..]) + (if LeadingFeeds(y) % 2 == 1 then 0 else 1)
    decreases |y|
  {
    hide Blanks;
    if |y| == 1 || y[1] != '\n' {
      assert y == "\n" + y[1..];
      NoBlankIn("\n");
      PrefixCounts("\n", y[1..]);
      assert LeadingFeeds(y) == 1 + LeadingFeeds(y[1..]) == 1;
    } else {
      PairCounts(y);
      var z := y[2..];
      assert y[1..] == "\n" + z && y[1..][1..] == z;
      assert LeadingFeeds(y) == 1 + LeadingFeeds(y[1..]) == 2 + LeadingFeeds(z);
      if z != "" && z[0] == '\n' {
        PairCounts(y[1..]);
        assert y[1..][2..] == z[1..];
        FeedCounts(z);
      } else {
        NoBlankIn("\n");
        PrefixCounts("\n", z);
      }
    }
  }

  lemma BlanksAppend(x: string, y: string)
    ensures Blanks(x + y) == Blanks(x) + Blanks(Split(x).1 + y)
  {
    hide Split;
    SplitAppend(x, y);
  }

  /** Keeping a carriage return before a line feed changes the number of events by one or not at
      all: here for an unfinished text, in which no blank line begins, then for any. */
  lemma HeldCounts(u: string, y: string)
    requires FindBlank(u, 0) == |u| && y != "" && y[0] == '\n'
    ensures Blanks(u + y) == Blanks(u + "\r" + y) + (if CostsEvent(u, y) then 1 else 0)
  {
    hide Blanks;
    hide LeadingFeeds;
    hide FindBlank;
    ReturnEndsBlank(u);
    PrefixCounts(u + "\r", y);
    if EndsInFeed(u) {
      var v := u[..|u| - 1];
      var fed := "\n" + y;
      assert u + y == v + fed && fed[2..] == y[1..] && fed[1] == '\n';
      FeedEndsBlank(u);
      PrefixCounts(v, fed);
      PairCounts(fed);
      FeedCounts(y);
    } else {
      PrefixCounts(u, y);
    }
  }

  lemma ReturnCounts(x: string, y: string)
    requires y != "" && y[0] == '\n'
    ensures Blanks(x + y) == Blanks(x + "\r" + y) + (if CostsEvent(Split(x).1, y) then 1 else 0)
  {
    hide Split;
    hide Blanks;
    hide CostsEvent;
    var u := Split(x).1;
    RestHasNoBlank(x);
    BlanksAppend(x, y);
    BlanksAppend(x, "\r" + y);
    assert x + "\r" + y == x + ("\r" + y) && u + ("\r" + y) == u + "\r" + y;
    HeldCounts(u, y);
  }

  lemma {:induction false} RestHasNoBlank(x: string)
    ensures FindBlank(Split(x).1, 0) == |Split(x).1|
    decreases |x|
  {
    hide Split;
    hide FindBlank;
    var at := FindBlank(x, 0);
    if at < |x| {
      SplitFirst(x);
      RestHasNoBlank(x[at + 2..]);
    } else {
      SplitNone(x);
    }
  }

  lemma ReturnEndsBlank(u: string)
    requires FindBlank(u, 0) == |u|
    ensures FindBlank(u + "\r", 0) == |u + "\r"|
  {
    var s := u + "\r";
    forall j | 0 <= j && j + 1 < |s|
      ensures !(s[j] == '\n' && s[j + 1] == '\n')
    {
      if j + 1 < |u| {
        assert s[j] == u[j] && s[j + 1] == u[j + 1];
      }
    }
    NoBlankIn(s);
  }

  lemma FeedEndsBlank(u: string)
    requires FindBlank(u, 0) == |u| && EndsInFeed(u)
    ensures var v := u[..|u| - 1]; FindBlank(v, 0) == |v| && !EndsInFeed(v)
  {
    var v := u[..|u| - 1];
    assert forall j :: 0 <= j < |v| ==> v[j] == u[j];
    assert v != "" ==> Last(v) == u[|u| - 2] && u[|u| - 1] == '\n';
    NoBlankIn(v);
  }

  /** The first i chunks as the reader normalises them, the others as one text. */
  function Mixed(chunks: seq<string>, i: nat): string
    requires i <= |chunks|
  {
    UnixChunks(chunks[..i]) + Unix(Flatten(chunks[i..]))
  }

  lemma UnixReturn(c: string)
    requires c != "" && Last(c) == '\r'
    ensures Unix(c) == Unix(c[..|c| - 1]) + "\r"
  {
    hide Unix;
    var front, cr: string := c[..|c| - 1], "\r";
    assert c == front + cr && cr[1..] == "" && [cr[0]] + "" == cr;
    UnixAppend(front, cr);
    UnixOne(cr);
    UnixEmpty();
  }

  lemma UnixFeed(c: string, rest: string)
    requires CutsPair(c, rest)
    ensures Unix(c + rest) == Unix(c[..|c| - 1]) + Unix(rest) && Unix(rest) != "" && Unix(rest)[0] == '\n'
  {
    hide Unix;
    var front := c[..|c| - 1];
    var pair := "\r" + rest;
    assert c + rest == front + pair;
    UnixAppend(front, pair);
    UnixPair(pair);
    UnixOne(rest);
    assert pair[2..] == rest[1..];
  }

  lemma MixedStep(chunks: seq<string>, i: nat)
    requires i < |chunks|
    ensures Blanks(Mixed(chunks, i)) == Blanks(Mixed(chunks, i + 1)) + (if LosingCut(chunks, i) then 1 else 0)
  {
    hide Unix;
    hide Blanks;
    hide CostsEvent;
    hide Split;
    var c, rest := chunks[i], Flatten(chunks[i + 1..]);
    var done := UnixChunks(chunks[..i]);
    assert chunks[i..][0] == c && chunks[i..][1..] == chunks[i + 1..];
    assert Flatten(chunks[i..]) == c + rest;
    assert chunks[..i + 1][..i] == chunks[..i] && Last(chunks[..i + 1]) == c;
    assert UnixChunks(chunks[..i + 1]) == done + Unix(c);
    if CutsPair(c, rest) {
      UnixReturn(c);
      UnixFeed(c, rest);
      var x, y := done + Unix(c[..|c| - 1]), Unix(rest);
      assert done + (Unix(c[..|c| - 1]) + y) == x + y;
      assert done + (Unix(c[..|c| - 1]) + "\r") + y == x + "\r" + y;
      ReturnCounts(x, y);
    } else {
      UnixAppend(c, rest);
      assert done + (Unix(c) + Unix(rest)) == done + Unix(c) + Unix(rest);
    }
  }

  lemma {:induction false} MixedCounts(chunks: seq<string>, from: nat)
    requires from <= |chunks|
    ensures Blanks(Mixed(chunks, from)) == Blanks(Mixed(chunks, |chunks|)) + LosingCuts(chunks, from)
    decreases |chunks| - from
  {
    hide Blanks;
    hide Mixed;
    hide LosingCut;
    if from < |chunks| {
      MixedStep(chunks, from);
      MixedCounts(chunks, from + 1);
    }
  }

  /** The events lost to the cuts are exactly as many as the cuts that cost one; so an event is
      lost exactly when some cut inside a pair falls where that pair was to complete a blank line
      which the line feeds that follow do not make up for. */
  lemma LostExactly(chunks: seq<string>)
    ensures |Split(Unix(Flatten(chunks))).0| == |Split(UnixChunks(chunks)).0| + LosingCuts(chunks, 0)
    ensures |Split(UnixChunks(chunks)).0| < |Split(Unix(Flatten(chunks))).0| <==>
            exists i :: 0 <= i < |chunks| && LosingCut(chunks, i)
  {
    MixedCounts(chunks, 0);
    hide Split;
    hide LosingCut;
    UnixEmpty();
    hide Unix;
    assert chunks[..0] == [] && chunks[0..] == chunks;
    assert chunks[..|chunks|] == chunks && chunks[|chunks|..] == [];
    assert UnixChunks(chunks) + "" == UnixChunks(chunks);
    assert "" + Unix(Flatten(chunks)) == Unix(Flatten(chunks));
    SomeLosingCut(chunks, 0);
  }

  lemma {:induction false} SomeLosingCut(chunks: seq<string>, from: nat)
    requires from <= |chunks|
    ensures LosingCuts(chunks, from) > 0 <==> exists i :: from <= i < |chunks| && LosingCut(chunks, i)
    decreases |chunks| - from
  {
    hide LosingCut;
    if from < |chunks| {
      SomeLosingCut(chunks, from + 1);
    }
  }
}

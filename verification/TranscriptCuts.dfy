/** Where a stream's text is cut into entries, and which text is the answer. */
module TranscriptCuts {
  import opened Basics
  import opened Transcripts

  /** The first event, if any, that carries assistant text. */
  predicate FirstDelta(channel: Channel, events: seq<Numbered>, i: int) {
    0 <= i < |events| && Carries(channel, events[i].event)
    && forall j :: 0 <= j < i ==> !Carries(channel, events[j].event)
  }

  predicate LastDelta(channel: Channel, events: seq<Numbered>, i: int) {
    0 <= i < |events| && Carries(channel, events[i].event)
    && forall j :: i < j < |events| ==> !Carries(channel, events[j].event)
  }

  predicate Carries(channel: Channel, e: StreamEvent) {
    (channel == Assistant && e.AssistantDelta?) || (channel == Reasoning && e.ReasoningDelta?)
  }

  function InCommentary(entries: seq<Entry>): seq<Entry> {
    seq(|entries|, i requires 0 <= i < |entries| =>
          if entries[i].Text? then entries[i].(phase := Commentary) else entries[i])
  }

  /** The entry an event leaves by itself: of a tool's start or end, or of a steering text. */
  function OwnEntry(n: Numbered): seq<Entry> {
    if n.event.ToolStarted? then [Tool(false, n.sequence)]
    else if n.event.ToolCompleted? then [Tool(true, n.sequence)]
    else if n.event.UserSteer? && n.event.text != "" then [Steer(n.event.text, n.sequence)]
    else []
  }

  // ----- the fold goes on from where it was cut -----

  lemma StepAfter(e: seq<Entry>, f: Fold, n: Numbered)
    ensures Stepped(f.(entries := e + f.entries), n) == Stepped(f, n).(entries := e + Stepped(f, n).entries)
  {
    hide Written;
    hide Closes;
    hide OtherEntries;
    var g := Stepped(f, n);
    var h := Stepped(f.(entries := e + f.entries), n);
    SteppedAppends(f, n);
    SteppedAppends(f.(entries := e + f.entries), n);
    SteppedPending(f, n, e);
    assert h.entries == e + g.entries;
  }

  lemma SteppedPending(f: Fold, n: Numbered, e: seq<Entry>)
    ensures var g, h := Stepped(f, n), Stepped(f.(entries := e + f.entries), n);
            h.assistant == g.assistant && h.reasoning == g.reasoning
  {
    hide Written;
    hide OtherEntries;
  }

  lemma SteppedAppends(f: Fold, n: Numbered)
    ensures Stepped(f, n).entries ==
            f.entries
            + ((if Closes(Assistant, n.event) then Written(Collect(f.assistant, Assistant, n), Assistant, Commentary) else [])
               + ((if Closes(Reasoning, n.event) then Written(Collect(f.reasoning, Reasoning, n), Reasoning, Commentary) else [])
                  + OtherEntries(n)))
  {
    hide Written;
    hide OtherEntries;
    hide Collect;
  }

  lemma {:induction false} FoldAfter(before: seq<Numbered>, after: seq<Numbered>)
    requires Folded(before).assistant == NOTHING_PENDING && Folded(before).reasoning == NOTHING_PENDING
    ensures Folded(before + after) == Folded(after).(entries := Folded(before).entries + Folded(after).entries)
  {
    if after == [] {
      assert before + after == before;
      assert Folded(before).entries + [] == Folded(before).entries;
    } else {
      var front, n := after[..|after| - 1], Last(after);
      assert (before + after)[..|before + after| - 1] == before + front;
      FoldAfter(before, front);
      StepAfter(Folded(before).entries, Folded(front), n);
    }
  }

  predicate AllCommentary(entries: seq<Entry>) {
    forall e | e in entries :: e.Text? ==> e.phase == Commentary
  }

  lemma {:induction false} FoldedCommentary(events: seq<Numbered>)
    ensures AllCommentary(Folded(events).entries)
  {
    if events != [] {
      var front, n := events[..|events| - 1], Last(events);
      FoldedCommentary(front);
      SteppedAppends(Folded(front), n);
      hide Stepped;
      hide Closes;
      hide Collect;
    }
  }

  lemma CommentarySame(entries: seq<Entry>)
    requires AllCommentary(entries)
    ensures InCommentary(entries) == entries
  {
    forall i | 0 <= i < |entries|
      ensures InCommentary(entries)[i] == entries[i]
    {
      assert entries[i] in entries;
    }
  }

  lemma CommentaryAppend(a: seq<Entry>, b: seq<Entry>)
    ensures InCommentary(a + b) == InCommentary(a) + InCommentary(b)
  {
  }

  lemma CommentaryWritten(p: Pending, channel: Channel, phase: Phase)
    ensures InCommentary(Written(p, channel, phase)) == Written(p, channel, Commentary)
  {
  }

  /** The transcript of what came before, had the stream ended there, but as commentary. */
  lemma TranscriptInCommentary(before: seq<Numbered>)
    ensures var f := Folded(before);
            InCommentary(Transcript(before)) ==
            f.entries + (Written(f.assistant, Assistant, Commentary) + Written(f.reasoning, Reasoning, Commentary))
  {
    hide Folded;
    hide Written;
    hide InCommentary;
    var f := Folded(before);
    FoldedCommentary(before);
    CommentarySame(f.entries);
    CommentaryWritten(f.assistant, Assistant, Final);
    CommentaryWritten(f.reasoning, Reasoning, Final);
    CommentaryAppend(f.entries + Written(f.assistant, Assistant, Final), Written(f.reasoning, Reasoning, Final));
    CommentaryAppend(f.entries, Written(f.assistant, Assistant, Final));
  }

  lemma CutFold(before: seq<Numbered>, n: Numbered)
    requires n.event.ToolStarted? || n.event.ApprovalRequested? || n.event.UserSteer?
    ensures Folded(before + [n]) == Fold(InCommentary(Transcript(before)) + OwnEntry(n), NOTHING_PENDING, NOTHING_PENDING)
  {
    var f := Folded(before);
    assert (before + [n])[..|before|] == before && Last(before + [n]) == n;
    assert |before + [n]| - 1 == |before|;
    TranscriptInCommentary(before);
    hide Folded;
    hide Written;
    hide InCommentary;
    hide Transcript;
    assert Folded(before + [n]) == Stepped(f, n) by {
      FoldedLast(before, n);
    }
  }

  lemma FoldedLast(before: seq<Numbered>, n: Numbered)
    ensures Folded(before + [n]) == Stepped(Folded(before), n)
  {
    assert (before + [n])[..|before + [n]| - 1] == before;
  }

  /** A tool's start, a request for approval and a steering message cut the stream in two: what came
      before stands first, all of it as commentary, then the event's own entry, and what follows is
      taken down as if it were the whole stream. */
  lemma CutSplits(before: seq<Numbered>, n: Numbered, after: seq<Numbered>)
    requires n.event.ToolStarted? || n.event.ApprovalRequested? || n.event.UserSteer?
    ensures Transcript(before + [n] + after) == InCommentary(Transcript(before)) + OwnEntry(n) + Transcript(after)
  {
    CutFold(before, n);
    FoldAfter(before + [n], after);
    hide Folded;
    hide Written;
    hide InCommentary;
    hide OwnEntry;
    var head, f := Folded(before + [n]).entries, Folded(after);
    assert Transcript(before + [n] + after) ==
           ((head + f.entries) + Written(f.assistant, Assistant, Final)) + Written(f.reasoning, Reasoning, Final);
    assert Transcript(after) == (f.entries + Written(f.assistant, Assistant, Final)) + Written(f.reasoning, Reasoning, Final);
  }

  // ----- the end of a reasoning block cuts the reasoning alone -----

  lemma TextsOfCommentary(channel: Channel, entries: seq<Entry>)
    ensures Texts(channel, InCommentary(entries)) == InCommentary(Texts(channel, entries))
    decreases |entries|
  {
    if entries != [] {
      var front, last := entries[..|entries| - 1], Last(entries);
      var own: seq<Entry> := if OnChannel(channel, last) then [last] else [];
      TextsOfCommentary(channel, front);
      assert InCommentary(entries)[..|entries| - 1] == InCommentary(front);
      CommentaryAppend(Texts(channel, front), own);
    }
  }

  /** What a channel's text goes through, apart from the other channel. */
  datatype Channelled = Channelled(texts: seq<Entry>, pending: Pending)

  function Side(channel: Channel, events: seq<Numbered>): Channelled {
    Channelled(Texts(channel, Folded(events).entries), Of(Folded(events), channel))
  }

  predicate Ends(channel: Channel, e: StreamEvent) {
    e.ToolStarted? || e.ApprovalRequested? || e.UserSteer? || (channel == Reasoning && e.ReasoningCompleted?)
  }

  lemma SideStep(channel: Channel, before: seq<Numbered>, n: Numbered)
    ensures var s, t := Side(channel, before), Side(channel, before + [n]);
            t == if Ends(channel, n.event)
                 then Channelled(s.texts + Written(s.pending, channel, Commentary), NOTHING_PENDING)
                 else Channelled(s.texts, Collect(s.pending, channel, n))
  {
    hide Written;
    hide Texts;
    hide OtherEntries;
    var f := Folded(before);
    FoldedLast(before, n);
    hide Folded;
    var mine: seq<Entry> := if Closes(channel, n.event) then Written(Of(f, channel), channel, Commentary) else [];
    StepTexts(channel, f, n, mine);
    TextsAppend(channel, f.entries, mine);
    WrittenTexts(channel, Of(f, channel), Commentary);
    TextsNothing(channel);
    assert Texts(channel, f.entries) + [] == Texts(channel, f.entries);
  }

  lemma TextsNothing(channel: Channel)
    ensures Texts(channel, []) == []
  {
  }

  lemma {:induction false} SideAfter(channel: Channel, before: seq<Numbered>, after: seq<Numbered>)
    requires Side(channel, before).pending == NOTHING_PENDING
    ensures Side(channel, before + after) ==
            Channelled(Side(channel, before).texts + Side(channel, after).texts, Side(channel, after).pending)
  {
    hide Side;
    hide Written;
    hide Collect;
    if after == [] {
      assert before + after == before;
      SideNothing(channel);
      assert Side(channel, before).texts + [] == Side(channel, before).texts;
    } else {
      var front, n := after[..|after| - 1], Last(after);
      assert before + after == (before + front) + [n] && after == front + [n];
      SideAfter(channel, before, front);
      SideStep(channel, before + front, n);
      SideStep(channel, front, n);
    }
  }

  lemma SideNothing(channel: Channel)
    ensures Side(channel, []) == Channelled([], NOTHING_PENDING)
  {
  }

  lemma SideTexts(channel: Channel, events: seq<Numbered>)
    ensures var s := Side(channel, events);
            && Texts(channel, Transcript(events)) == s.texts + Written(s.pending, channel, Final)
            && InCommentary(Texts(channel, Transcript(events))) == s.texts + Written(s.pending, channel, Commentary)
  {
    var f := Folded(events);
    FinishedTexts(channel, events);
    TextsAppend(channel, f.entries, Written(Of(f, channel), channel, Final));
    WrittenTexts(channel, Of(f, channel), Final);
    FoldedCommentary(events);
    hide Folded;
    hide Written;
    hide Transcript;
    var s := Side(channel, events);
    hide Texts;
    CommentarySame(s.texts);
    CommentaryWritten(s.pending, channel, Final);
    CommentaryAppend(s.texts, Written(s.pending, channel, Final));
  }

  /** For one channel, everything that cuts its text does so in the same way; the end of a reasoning
      block cuts the reasoning and leaves the assistant's text alone. */
  lemma ChannelSplits(channel: Channel, before: seq<Numbered>, n: Numbered, after: seq<Numbered>)
    requires n.event.ToolStarted? || n.event.ApprovalRequested? || n.event.UserSteer?
             || (channel == Reasoning && n.event.ReasoningCompleted?)
    ensures Texts(channel, Transcript(before + [n] + after)) ==
            InCommentary(Texts(channel, Transcript(before))) + Texts(channel, Transcript(after))
  {
    hide Side;
    hide Texts;
    hide Transcript;
    hide Written;
    hide InCommentary;
    SideStep(channel, before, n);
    SideAfter(channel, before + [n], after);
    SideTexts(channel, before);
    SideTexts(channel, after);
    SideTexts(channel, before + [n] + after);
  }

  // ----- what is not cut stays together -----

  predicate Uncut(channel: Channel, events: seq<Numbered>) {
    forall i :: 0 <= i < |events| ==>
      && !events[i].event.ToolStarted? && !events[i].event.ApprovalRequested? && !events[i].event.UserSteer?
      && (channel == Reasoning ==> !events[i].event.ReasoningCompleted?)
  }

  /** All the text a channel carries. */
  function Carried(channel: Channel, events: seq<Numbered>): string {
    if events == [] then ""
    else
      var e := Last(events).event;
      Carried(channel, events[..|events| - 1])
      + (if channel == Assistant && e.AssistantDelta? then e.text
         else if channel == Reasoning && e.ReasoningDelta? then e.text
         else "")
  }

  /** What is collected is all that was carried, from the first delta to the last. */
  ghost predicate Collected(channel: Channel, events: seq<Numbered>, p: Pending) {
    p.text == Carried(channel, events)
    && if p.from == 0 then p == NOTHING_PENDING && forall i :: 0 <= i < |events| ==> !Carries(channel, events[i].event)
       else exists i, j :: FirstDelta(channel, events, i) && LastDelta(channel, events, j)
                           && p.from == events[i].sequence && p.through == events[j].sequence
  }

  lemma CollectedStep(channel: Channel, events: seq<Numbered>, n: Numbered, p: Pending)
    requires Collected(channel, events, p) && n.sequence > 0
    ensures Collected(channel, events + [n], Collect(p, channel, n))
  {
    var longer, q := events + [n], Collect(p, channel, n);
    assert longer[..|longer| - 1] == events && Last(longer) == n;
    assert forall i :: 0 <= i < |events| ==> longer[i] == events[i];
    assert longer[|events|] == n;
    if Carries(channel, n.event) {
      assert LastDelta(channel, longer, |events|);
      if p.from == 0 {
        assert FirstDelta(channel, longer, |events|);
      } else {
        var i, j :| FirstDelta(channel, events, i) && LastDelta(channel, events, j)
                    && p.from == events[i].sequence && p.through == events[j].sequence;
        assert FirstDelta(channel, longer, i);
      }
    } else if p.from > 0 {
      var i, j :| FirstDelta(channel, events, i) && LastDelta(channel, events, j)
                  && p.from == events[i].sequence && p.through == events[j].sequence;
      assert FirstDelta(channel, longer, i) && LastDelta(channel, longer, j);
    }
  }

  lemma {:induction false} UncutSide(channel: Channel, events: seq<Numbered>)
    requires Uncut(channel, events) && Increasing(events)
    ensures Side(channel, events).texts == [] && Collected(channel, events, Side(channel, events).pending)
  {
    hide Side;
    hide Collect;
    hide Collected;
    SideNothing(channel);
    NothingCollected(channel);
    if events != [] {
      var front, n := events[..|events| - 1], Last(events);
      assert events == front + [n];
      UncutSide(channel, front);
      SideStep(channel, front, n);
      CollectedStep(channel, front, n, Side(channel, front).pending);
    }
  }

  lemma NothingCollected(channel: Channel)
    ensures Collected(channel, [], NOTHING_PENDING)
  {
  }

  /** Text that nothing cuts becomes one entry, which holds all of it, is final and spans from its
      first delta to its last; without any text there is no entry. */
  lemma UncutIsOneEntry(channel: Channel, events: seq<Numbered>)
    requires Uncut(channel, events) && Increasing(events)
    ensures var texts := Texts(channel, Transcript(events));
            if Carried(channel, events) == "" then texts == []
            else exists i, j :: FirstDelta(channel, events, i) && LastDelta(channel, events, j)
                   && texts == [Text(channel, Carried(channel, events), Final, events[i].sequence, events[j].sequence)]
  {
    UncutSide(channel, events);
    SideTexts(channel, events);
    hide Texts;
    hide Transcript;
    hide Side;
    hide Carried;
  }

  // ----- the answer -----

  /** The events from the k-th on are those after the last one that cuts the assistant's text. */
  predicate LastStretch(events: seq<Numbered>, k: int) {
    && 0 <= k <= |events| && Uncut(Assistant, events[k..])
    && (k > 0 ==> var e := events[k - 1].event; e.ToolStarted? || e.ApprovalRequested? || e.UserSteer?)
  }

  lemma IncreasingTail(events: seq<Numbered>, k: nat)
    requires Increasing(events) && k <= |events|
    ensures Increasing(events[k..])
  {
    assert forall i :: 0 <= i < |events| - k ==> events[k..][i] == events[k + i];
  }

  /** The final answer is exactly the assistant's text after the last tool start, approval request
      or steering message, if there is any; everything before is commentary. */
  lemma AnswerExactly(events: seq<Numbered>, k: nat)
    requires Increasing(events) && LastStretch(events, k)
    ensures var answer := Carried(Assistant, events[k..]);
            var earlier := if k == 0 then [] else InCommentary(Texts(Assistant, Transcript(events[..k - 1])));
            var texts := Texts(Assistant, Transcript(events));
            if answer == "" then texts == earlier
            else exists i, j :: FirstDelta(Assistant, events[k..], i) && LastDelta(Assistant, events[k..], j)
                   && texts == earlier + [Text(Assistant, answer, Final, events[k + i].sequence, events[k + j].sequence)]
  {
    hide Texts;
    hide Transcript;
    hide InCommentary;
    hide Carried;
    hide Increasing;
    hide Uncut;
    hide Carries;
    IncreasingTail(events, k);
    UncutIsOneEntry(Assistant, events[k..]);
    EarlierTexts(events, k);
    var answer, tail := Carried(Assistant, events[k..]), Texts(Assistant, Transcript(events[k..]));
    assert forall i :: 0 <= i < |events| - k ==> events[k..][i] == events[k + i];
    if answer != "" {
      var i, j :| FirstDelta(Assistant, events[k..], i) && LastDelta(Assistant, events[k..], j)
                  && tail == [Text(Assistant, answer, Final, events[k..][i].sequence, events[k..][j].sequence)];
      assert tail == [Text(Assistant, answer, Final, events[k + i].sequence, events[k + j].sequence)];
    }
  }

  lemma EarlierTexts(events: seq<Numbered>, k: nat)
    requires LastStretch(events, k)
    ensures Texts(Assistant, Transcript(events)) ==
            (if k == 0 then [] else InCommentary(Texts(Assistant, Transcript(events[..k - 1]))))
            + Texts(Assistant, Transcript(events[k..]))
  {
    hide Texts;
    hide Transcript;
    hide InCommentary;
    if k == 0 {
      assert events[0..] == events;
      assert [] + Texts(Assistant, Transcript(events)) == Texts(Assistant, Transcript(events));
    } else {
      assert events == events[..k - 1] + [events[k - 1]] + events[k..];
      ChannelSplits(Assistant, events[..k - 1], events[k - 1], events[k..]);
    }
  }

  lemma {:induction false} UncutText(channel: Channel, events: seq<Numbered>)
    requires Uncut(channel, events)
    ensures Side(channel, events).pending.text == Carried(channel, events)
  {
    hide Side;
    SideNothing(channel);
    if events != [] {
      var front, n := events[..|events| - 1], Last(events);
      assert events == front + [n];
      UncutText(channel, front);
      SideStep(channel, front, n);
    }
  }

  /** What is still to be written when the stream ends is the answer. */
  lemma PendingIsAnswer(events: seq<Numbered>, k: nat)
    requires LastStretch(events, k)
    ensures Folded(events).assistant.text == Carried(Assistant, events[k..])
  {
    UncutText(Assistant, events[k..]);
    if k == 0 {
      assert events[0..] == events;
    } else {
      assert events == (events[..k - 1] + [events[k - 1]]) + events[k..];
      SideStep(Assistant, events[..k - 1], events[k - 1]);
      SideAfter(Assistant, events[..k - 1] + [events[k - 1]], events[k..]);
    }
  }

  /** Every stream has such a last stretch. */
  lemma {:induction false} SomeLastStretch(events: seq<Numbered>) returns (k: nat)
    ensures LastStretch(events, k)
  {
    if events == [] {
      k := 0;
    } else {
      var front, e := events[..|events| - 1], Last(events).event;
      if e.ToolStarted? || e.ApprovalRequested? || e.UserSteer? {
        k := |events|;
      } else {
        k := SomeLastStretch(front);
        assert forall i :: 0 <= i < |front| - k ==> events[k..][i] == front[k..][i];
      }
    }
  }

  lemma AnswerPending(events: seq<Numbered>)
    ensures Folded(events).assistant.text != "" <==>
            exists k :: LastStretch(events, k) && Carried(Assistant, events[k..]) != ""
  {
    hide Folded;
    hide Carried;
    var stretch := SomeLastStretch(events);
    forall k: nat | LastStretch(events, k)
      ensures Folded(events).assistant.text == Carried(Assistant, events[k..])
    {
      PendingIsAnswer(events, k);
    }
  }

  /** At most one assistant entry is final: the last one, and exactly if there is an answer. */
  lemma OnlyLastIsFinal(events: seq<Numbered>, i: nat)
    requires Increasing(events) && i < |Texts(Assistant, Transcript(events))|
    ensures var texts := Texts(Assistant, Transcript(events));
            texts[i].Text?
            && (texts[i].phase == Final <==>
                  i == |texts| - 1 && exists k :: LastStretch(events, k) && Carried(Assistant, events[k..]) != "")
  {
    hide Folded;
    hide Carried;
    hide Transcript;
    hide Texts;
    hide LastStretch;
    FinalIsPending(events, i);
    AnswerPending(events);
  }

  // ----- conservation and order -----

  lemma {:induction false} StreamedIsCarried(channel: Channel, events: seq<Numbered>)
    ensures Streamed(channel, events) == Carried(channel, events)
  {
    if events != [] {
      StreamedIsCarried(channel, events[..|events| - 1]);
    }
  }

  /** Conservation: the entries of a channel join up to all the text it carried. */
  lemma TextCarried(channel: Channel, events: seq<Numbered>)
    requires Increasing(events)
    ensures Joined(Texts(channel, Transcript(events))) == Carried(channel, events)
  {
    hide *;
    TextConserved(channel, events);
    StreamedIsCarried(channel, events);
  }

  predicate NotText(e: Entry) {
    e.Tool? || e.Steer?
  }

  function Others(entries: seq<Entry>): seq<Entry> {
    if entries == [] then []
    else Others(entries[..|entries| - 1]) + (if NotText(Last(entries)) then [Last(entries)] else [])
  }

  lemma {:induction false} OthersAppend(a: seq<Entry>, b: seq<Entry>)
    ensures Others(a + b) == Others(a) + Others(b)
  {
    if b == [] {
      assert a + b == a;
    } else {
      assert (a + b)[..|a + b| - 1] == a + b[..|b| - 1];
      OthersAppend(a, b[..|b| - 1]);
    }
  }

  lemma OthersOfWritten(p: Pending, channel: Channel, phase: Phase)
    ensures Others(Written(p, channel, phase)) == []
  {
    var w := Written(p, channel, phase);
    if w != [] {
      assert w[..|w| - 1] == [];
    }
  }

  function OwnEntries(events: seq<Numbered>): seq<Entry> {
    if events == [] then [] else OwnEntries(events[..|events| - 1]) + OwnEntry(Last(events))
  }

  lemma OthersOfOwn(n: Numbered)
    ensures OtherEntries(n) == OwnEntry(n) && Others(OwnEntry(n)) == OwnEntry(n)
  {
    if OwnEntry(n) != [] {
      assert OwnEntry(n)[..|OwnEntry(n)| - 1] == [];
    }
  }

  lemma OthersStep(f: Fold, n: Numbered)
    ensures Others(Stepped(f, n).entries) == Others(f.entries) + OwnEntry(n)
  {
    hide Others;
    hide Written;
    hide Collect;
    hide Closes;
    SteppedAppends(f, n);
    hide Stepped;
    var a: seq<Entry> := if Closes(Assistant, n.event) then Written(Collect(f.assistant, Assistant, n), Assistant, Commentary) else [];
    var r: seq<Entry> := if Closes(Reasoning, n.event) then Written(Collect(f.reasoning, Reasoning, n), Reasoning, Commentary) else [];
    OthersOfOwn(n);
    OthersNothing();
    OthersOfWritten(Collect(f.assistant, Assistant, n), Assistant, Commentary);
    OthersOfWritten(Collect(f.reasoning, Reasoning, n), Reasoning, Commentary);
    OthersAppend(f.entries, a + (r + OtherEntries(n)));
    OthersAppend(a, r + OtherEntries(n));
    OthersAppend(r, OtherEntries(n));
  }

  lemma OthersNothing()
    ensures Others([]) == []
  {
  }

  lemma {:induction false} OthersFolded(events: seq<Numbered>)
    ensures Others(Folded(events).entries) == OwnEntries(events)
  {
    if events != [] {
      hide Stepped;
      hide Others;
      hide OwnEntry;
      OthersFolded(events[..|events| - 1]);
      OthersStep(Folded(events[..|events| - 1]), Last(events));
    } else {
      OthersNothing();
    }
  }

  /** Besides its texts the transcript has exactly the entries of tools and steering messages, one
      for each such event, in order. */
  lemma OthersExactly(events: seq<Numbered>)
    ensures Others(Transcript(events)) == OwnEntries(events)
  {
    var f := Folded(events);
    OthersFolded(events);
    hide Folded;
    hide Others;
    hide Written;
    OthersAppend(f.entries + Written(f.assistant, Assistant, Final), Written(f.reasoning, Reasoning, Final));
    OthersAppend(f.entries, Written(f.assistant, Assistant, Final));
    OthersOfWritten(f.assistant, Assistant, Final);
    OthersOfWritten(f.reasoning, Reasoning, Final);
  }

  /** No entry's span holds an event that cuts its channel's text. */
  lemma SpansUncut(channel: Channel, events: seq<Numbered>, e: Entry, i: nat)
    requires Increasing(events) && e in Texts(channel, Transcript(events)) && i < |events|
    requires e.from <= events[i].sequence <= e.through
    ensures !events[i].event.ToolStarted? && !events[i].event.ApprovalRequested? && !events[i].event.UserSteer?
    ensures channel == Reasoning ==> !events[i].event.ReasoningCompleted?
  {
    hide Transcript;
    hide Texts;
    TextConserved(channel, events);
    assert Faithful(events, e);
  }

  // ----- the consumer -----

  /** Runs a stream to its end, whether it ends by itself, is cancelled or breaks, and reports
      whether the run's plan is to be completed: exactly after a stream that ended by itself with an
      answer, that is with text after the last event that cuts it, if the plan waits for one. */
  method Consume(events: seq<Numbered>, hasSession: bool, endsNormally: bool, planReady: bool)
      returns (entries: seq<Entry>, completesPlan: bool)
    ensures entries == if hasSession then Transcript(events) else []
    ensures completesPlan <==>
            endsNormally && planReady && exists k :: LastStretch(events, k) && Carried(Assistant, events[k..]) != ""
  {
    hide LastStretch;
    hide Carried;
    AnswerPending(events);
    entries := [];
    var assistantText, assistantFrom, assistantThrough := "", 0, 0;
    var reasoningText, reasoningFrom, reasoningThrough := "", 0, 0;
    var i := 0;
    while i < |events|
      invariant 0 <= i <= |events|
      invariant Folded(events[..i]).assistant == Pending(assistantText, assistantFrom, assistantThrough)
      invariant Folded(events[..i]).reasoning == Pending(reasoningText, reasoningFrom, reasoningThrough)
      invariant entries == if hasSession then Folded(events[..i]).entries else []
    {
      assert events[..i + 1][..i] == events[..i];
      var n := events[i];
      ghost var f := Folded(events[..i]);
      if n.event.AssistantDelta? {
        if assistantFrom == 0 {
          assistantFrom := n.sequence;
        }
        assistantThrough := n.sequence;
        assistantText := assistantText + n.event.text;
      }
      if n.event.ReasoningDelta? {
        if reasoningFrom == 0 {
          reasoningFrom := n.sequence;
        }
        reasoningThrough := n.sequence;
        reasoningText := reasoningText + n.event.text;
      }
      if n.event.ToolStarted? || n.event.ApprovalRequested? || n.event.UserSteer? {
        if hasSession {
          entries := entries + Written(Pending(assistantText, assistantFrom, assistantThrough), Assistant, Commentary);
          entries := entries + Written(Pending(reasoningText, reasoningFrom, reasoningThrough), Reasoning, Commentary);
        }
        assistantText, assistantFrom, assistantThrough := "", 0, 0;
        reasoningText, reasoningFrom, reasoningThrough := "", 0, 0;
      }
      if n.event.ReasoningCompleted? {
        if hasSession {
          entries := entries + Written(Pending(reasoningText, reasoningFrom, reasoningThrough), Reasoning, Commentary);
        }
        reasoningText, reasoningFrom, reasoningThrough := "", 0, 0;
      }
      if hasSession {
        entries := entries + OtherEntries(n);
      }
      assert Folded(events[..i + 1]) == Stepped(f, n);
      i := i + 1;
    }
    assert events[..i] == events;
    var emittedFinal := assistantText != "";
    if hasSession {
      entries := entries + Written(Pending(assistantText, assistantFrom, assistantThrough), Assistant, Final);
      entries := entries + Written(Pending(reasoningText, reasoningFrom, reasoningThrough), Reasoning, Final);
    }
    completesPlan := endsNormally && emittedFinal && planReady;
  }
}

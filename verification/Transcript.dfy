/** Folding a run's event stream into transcript entries. */
module Transcripts {
  import opened Basics

  datatype StreamEvent =
    | AssistantDelta(text: string) | ReasoningDelta(text: string) | ReasoningCompleted
    | ToolStarted | ToolCompleted | ApprovalRequested | ApprovalResolved | UserSteer(text: string) | Provenance

  /** An event with the sequence number the ledger gave it. */
  datatype Numbered = Numbered(sequence: nat, event: StreamEvent)

  datatype Channel = Assistant | Reasoning
  datatype Phase = Commentary | Final

  datatype Entry =
    | Text(channel: Channel, text: string, phase: Phase, from: nat, through: nat)
    | Steer(text: string, sequence: nat)
    | Tool(completed: bool, sequence: nat)

  function DeltaText(channel: Channel, e: StreamEvent): string {
    match (channel, e)
    case (Assistant, AssistantDelta(t)) => t
    case (Reasoning, ReasoningDelta(t)) => t
    case _ => ""
  }

  predicate IsDelta(channel: Channel, e: StreamEvent) {
    match channel case Assistant => e.AssistantDelta? case Reasoning => e.ReasoningDelta?
  }

  /** The events that close the text collected so far on a channel. */
  predicate Closes(channel: Channel, e: StreamEvent) {
    e.ToolStarted? || e.ApprovalRequested? || e.UserSteer? || (channel == Reasoning && e.ReasoningCompleted?)
  }

  // ----- the fold, one event at a time -----

  /** Text collected but not yet written, and the sequence numbers it spans (0 for none). */
  datatype Pending = Pending(text: string, from: nat, through: nat)

  const NOTHING_PENDING := Pending("", 0, 0)

  datatype Fold = Fold(entries: seq<Entry>, assistant: Pending, reasoning: Pending)

  function Of(f: Fold, channel: Channel): Pending {
    match channel case Assistant => f.assistant case Reasoning => f.reasoning
  }

  function Collect(p: Pending, channel: Channel, n: Numbered): Pending {
    if IsDelta(channel, n.event) then
      Pending(p.text + DeltaText(channel, n.event), if p.from == 0 then n.sequence else p.from, n.sequence)
    else p
  }

  /** The entry, if any, that writing out the collected text appends. */
  function Written(p: Pending, channel: Channel, phase: Phase): seq<Entry> {
    if p.text == "" then [] else [Text(channel, p.text, phase, p.from, p.through)]
  }

  function Closed(f: Fold, channel: Channel, phase: Phase): Fold {
    match channel
    case Assistant => f.(entries := f.entries + Written(f.assistant, Assistant, phase), assistant := NOTHING_PENDING)
    case Reasoning => f.(entries := f.entries + Written(f.reasoning, Reasoning, phase), reasoning := NOTHING_PENDING)
  }

  function OtherEntries(n: Numbered): seq<Entry> {
    match n.event
    case UserSteer(t) => if t == "" then [] else [Steer(t, n.sequence)]
    case ToolStarted => [Tool(false, n.sequence)]
    case ToolCompleted => [Tool(true, n.sequence)]
    case _ => []
  }

  function Stepped(f: Fold, n: Numbered): Fold {
    var collected := f.(assistant := Collect(f.assistant, Assistant, n), reasoning := Collect(f.reasoning, Reasoning, n));
    var a := if Closes(Assistant, n.event) then Closed(collected, Assistant, Commentary) else collected;
    var r := if Closes(Reasoning, n.event) then Closed(a, Reasoning, Commentary) else a;
    r.(entries := r.entries + OtherEntries(n))
  }

  function Folded(events: seq<Numbered>): Fold {
    if events == [] then Fold([], NOTHING_PENDING, NOTHING_PENDING)
    else Stepped(Folded(events[..|events| - 1]), Last(events))
  }

  function Finished(f: Fold): seq<Entry> {
    Closed(Closed(f, Assistant, Final), Reasoning, Final).entries
  }

  /** The transcript entries a session run appends for its whole stream. */
  function Transcript(events: seq<Numbered>): seq<Entry> {
    Finished(Folded(events))
  }

  // ----- reference meanings -----

  /** All the text streamed on a channel. */
  function Streamed(channel: Channel, events: seq<Numbered>): string {
    if events == [] then "" else Streamed(channel, events[..|events| - 1]) + DeltaText(channel, Last(events).event)
  }

  /** The text streamed on a channel between two sequence numbers. */
  function StreamedIn(channel: Channel, events: seq<Numbered>, from: nat, through: nat): string {
    if events == [] then ""
    else
      var n := Last(events);
      StreamedIn(channel, events[..|events| - 1], from, through)
      + (if from <= n.sequence <= through then DeltaText(channel, n.event) else "")
  }

  predicate OnChannel(channel: Channel, e: Entry) {
    e.Text? && e.channel == channel
  }

  /** The text entries of one channel, in order. */
  function Texts(channel: Channel, entries: seq<Entry>): (r: seq<Entry>)
    ensures forall e | e in r :: OnChannel(channel, e) && e in entries
  {
    if entries == [] then []
    else Texts(channel, entries[..|entries| - 1]) + (if OnChannel(channel, Last(entries)) then [Last(entries)] else [])
  }

  function Joined(entries: seq<Entry>): string {
    if entries == [] then "" else Joined(entries[..|entries| - 1]) + (if Last(entries).Text? then Last(entries).text else "")
  }

  predicate Increasing(events: seq<Numbered>) {
    (forall i :: 0 <= i < |events| ==> events[i].sequence >= 1)
    && forall i, j :: 0 <= i < j < |events| ==> events[i].sequence < events[j].sequence
  }

  function LastSequence(events: seq<Numbered>): nat {
    if events == [] then 0 else Last(events).sequence
  }

  predicate NoCloseIn(channel: Channel, events: seq<Numbered>, from: nat, through: nat) {
    forall i :: 0 <= i < |events| && from <= events[i].sequence <= through ==> !Closes(channel, events[i].event)
  }

  /** A written entry holds exactly the text streamed over its span, which no closing event interrupts. */
  predicate Faithful(events: seq<Numbered>, e: Entry) {
    e.Text? ==>
      1 <= e.from <= e.through <= LastSequence(events) && e.text != ""
      && e.text == StreamedIn(e.channel, events, e.from, e.through)
      && NoCloseIn(e.channel, events, e.from, e.through)
  }

  /** Spans follow each other without overlap. */
  predicate Ordered(texts: seq<Entry>)
    requires forall e | e in texts :: e.Text?
  {
    forall i, j :: 0 <= i < j < |texts| ==> texts[i].through < texts[j].from
  }

  // ----- proofs -----

  lemma {:induction false} TextsAppend(channel: Channel, a: seq<Entry>, b: seq<Entry>)
    ensures Texts(channel, a + b) == Texts(channel, a) + Texts(channel, b)
  {
    if b == [] {
      assert a + b == a;
    } else {
      assert (a + b)[..|a + b| - 1] == a + b[..|b| - 1];
      TextsAppend(channel, a, b[..|b| - 1]);
    }
  }

  lemma {:induction false} JoinedAppend(a: seq<Entry>, b: seq<Entry>)
    ensures Joined(a + b) == Joined(a) + Joined(b)
  {
    if b == [] {
      assert a + b == a;
    } else {
      assert (a + b)[..|a + b| - 1] == a + b[..|b| - 1];
      JoinedAppend(a, b[..|b| - 1]);
    }
  }

  lemma {:induction false} NothingBeyond(channel: Channel, events: seq<Numbered>, from: nat, through: nat, further: nat)
    requires LastSequence(events) <= through <= further && Increasing(events)
    ensures StreamedIn(channel, events, from, further) == StreamedIn(channel, events, from, through)
  {
    if events != [] {
      var front := events[..|events| - 1];
      assert front != [] ==> Last(front).sequence < Last(events).sequence;
      NothingBeyond(channel, front, from, through, further);
    }
  }

  lemma {:induction false} NothingInside(channel: Channel, events: seq<Numbered>, from: nat, through: nat)
    requires Increasing(events) && LastSequence(events) < from
    ensures StreamedIn(channel, events, from, through) == ""
  {
    if events != [] {
      var front := events[..|events| - 1];
      assert front != [] ==> Last(front).sequence < Last(events).sequence;
      NothingInside(channel, front, from, through);
    }
  }

  /** What has been collected is the text since `from`, on which nothing has closed. */
  ghost predicate PendingOk(channel: Channel, events: seq<Numbered>, p: Pending) {
    if p.from == 0 then p == NOTHING_PENDING
    else
      && 1 <= p.from <= p.through <= LastSequence(events)
      && (forall to: nat :: to >= p.through ==> StreamedIn(channel, events, p.from, to) == p.text)
      && NoCloseIn(channel, events, p.from, LastSequence(events))
  }

  /** What holds of one channel after any prefix of the stream. */
  ghost predicate ChannelOk(channel: Channel, events: seq<Numbered>, entries: seq<Entry>, p: Pending) {
    var texts := Texts(channel, entries);
    && Joined(texts) + p.text == Streamed(channel, events)
    && (forall e | e in texts :: Faithful(events, e) && e.phase == Commentary)
    && Ordered(texts)
    && PendingOk(channel, events, p)
    && (texts != [] && p.from > 0 ==> Last(texts).through < p.from)
  }

  lemma FaithfulLater(events: seq<Numbered>, n: Numbered, e: Entry)
    requires Increasing(events + [n]) && Faithful(events, e)
    ensures Faithful(events + [n], e)
  {
    var longer := events + [n];
    assert longer[..|longer| - 1] == events && Last(longer) == n;
    assert events != [] ==> Last(events).sequence < n.sequence by {
      assert events != [] ==> longer[|events| - 1].sequence < longer[|events|].sequence;
    }
    if e.Text? {
      forall i | 0 <= i < |longer| && e.from <= longer[i].sequence <= e.through
        ensures !Closes(e.channel, longer[i].event)
      {
        assert i < |events| && longer[i] == events[i];
      }
    }
  }

  lemma AppendedOrder(events: seq<Numbered>, n: Numbered)
    requires Increasing(events + [n])
    ensures Increasing(events) && LastSequence(events) < n.sequence == LastSequence(events + [n])
  {
    var longer := events + [n];
    assert forall i :: 0 <= i < |events| ==> longer[i] == events[i];
    assert longer[|events|] == n;
  }

  lemma AppendedStream(channel: Channel, events: seq<Numbered>, n: Numbered, from: nat, to: nat)
    ensures Streamed(channel, events + [n]) == Streamed(channel, events) + DeltaText(channel, n.event)
    ensures StreamedIn(channel, events + [n], from, to) ==
            StreamedIn(channel, events, from, to) + (if from <= n.sequence <= to then DeltaText(channel, n.event) else "")
  {
    var longer := events + [n];
    assert longer[..|longer| - 1] == events && Last(longer) == n;
  }

  lemma AppendedFacts(channel: Channel, events: seq<Numbered>, n: Numbered)
    requires Increasing(events + [n])
    ensures Increasing(events) && LastSequence(events) < n.sequence == LastSequence(events + [n])
    ensures Streamed(channel, events + [n]) == Streamed(channel, events) + DeltaText(channel, n.event)
    ensures forall from: nat, to: nat :: StreamedIn(channel, events + [n], from, to) ==
              StreamedIn(channel, events, from, to) + (if from <= n.sequence <= to then DeltaText(channel, n.event) else "")
  {
    AppendedOrder(events, n);
    hide *;
    AppendedStream(channel, events, n, 0, 0);
    forall from: nat, to: nat
      ensures StreamedIn(channel, events + [n], from, to) ==
              StreamedIn(channel, events, from, to) + (if from <= n.sequence <= to then DeltaText(channel, n.event) else "")
    {
      AppendedStream(channel, events, n, from, to);
    }
  }

  lemma CollectKeeps(channel: Channel, events: seq<Numbered>, p: Pending, n: Numbered)
    requires Increasing(events + [n]) && PendingOk(channel, events, p)
    requires IsDelta(channel, n.event) || !Closes(channel, n.event)
    ensures PendingOk(channel, events + [n], Collect(p, channel, n))
  {
    AppendedFacts(channel, events, n);
    var longer := events + [n];
    var q := Collect(p, channel, n);
    if q.from > 0 {
      forall to: nat | to >= q.through
        ensures StreamedIn(channel, longer, q.from, to) == q.text
      {
        if p.from == 0 {
          NothingInside(channel, events, q.from, to);
        }
      }
      forall i | 0 <= i < |longer| && q.from <= longer[i].sequence <= LastSequence(longer)
        ensures !Closes(channel, longer[i].event)
      {
        if i < |events| {
          assert longer[i] == events[i];
          assert events[i].sequence <= LastSequence(events) by {
            assert i == |events| - 1 || events[i].sequence < events[|events| - 1].sequence;
          }
        }
      }
    }
  }

  lemma EarlierTexts(channel: Channel, events: seq<Numbered>, n: Numbered, entries: seq<Entry>)
    requires Increasing(events + [n]) && forall e | e in Texts(channel, entries) :: Faithful(events, e)
    ensures forall e | e in Texts(channel, entries) :: Faithful(events + [n], e)
  {
    forall e | e in Texts(channel, entries)
      ensures Faithful(events + [n], e)
    {
      FaithfulLater(events, n, e);
    }
  }

  /** An event that neither adds to the channel nor closes it, or that only adds to it. */
  lemma CollectStep(channel: Channel, events: seq<Numbered>, entries: seq<Entry>, p: Pending, n: Numbered)
    requires Increasing(events + [n]) && ChannelOk(channel, events, entries, p)
    requires IsDelta(channel, n.event) || !Closes(channel, n.event)
    ensures ChannelOk(channel, events + [n], entries, Collect(p, channel, n))
  {
    hide StreamedIn;
    hide NoCloseIn;
    hide Texts;
    hide Joined;
    AppendedFacts(channel, events, n);
    CollectKeeps(channel, events, p, n);
    EarlierTexts(channel, events, n, entries);
    var texts := Texts(channel, entries);
    assert Joined(texts) + (p.text + DeltaText(channel, n.event)) == Joined(texts) + p.text + DeltaText(channel, n.event);
    if texts != [] {
      assert Last(texts) in texts && Faithful(events, Last(texts));
    }
  }

  lemma WrittenTexts(channel: Channel, p: Pending, phase: Phase)
    ensures Texts(channel, Written(p, channel, phase)) == Written(p, channel, phase)
    ensures Joined(Written(p, channel, phase)) == p.text
  {
    var w := Written(p, channel, phase);
    if w != [] {
      assert w[..|w| - 1] == [];
    }
  }

  lemma OrderedExtended(texts: seq<Entry>, e: Entry)
    requires (forall x | x in texts :: x.Text? && x.from <= x.through) && e.Text?
    requires Ordered(texts) && (texts != [] ==> Last(texts).through < e.from)
    ensures (forall x | x in texts + [e] :: x.Text?) && Ordered(texts + [e])
  {
    var longer := texts + [e];
    forall i, j | 0 <= i < j < |longer|
      ensures longer[i].through < longer[j].from
    {
      if j == |texts| && i < |texts| - 1 {
        assert texts[i].through < texts[|texts| - 1].from && texts[|texts| - 1] in texts;
      }
    }
  }

  /** Writing out what was collected. */
  lemma CloseStep(channel: Channel, events: seq<Numbered>, entries: seq<Entry>, p: Pending, phase: Phase)
    requires ChannelOk(channel, events, entries, p)
    ensures var after := entries + Written(p, channel, phase);
            && Texts(channel, after) == Texts(channel, entries) + Written(p, channel, phase)
            && Joined(Texts(channel, after)) == Streamed(channel, events)
            && Ordered(Texts(channel, after))
            && forall e | e in Texts(channel, after) :: Faithful(events, e)
  {
    var w := Written(p, channel, phase);
    var texts := Texts(channel, entries);
    TextsAppend(channel, entries, w);
    WrittenTexts(channel, p, phase);
    JoinedAppend(texts, w);
    hide Texts;
    hide Joined;
    hide Streamed;
    if w != [] {
      WrittenFaithful(channel, events, p, phase);
      forall x | x in texts
        ensures x.from <= x.through
      {
        assert Faithful(events, x);
      }
      OrderedExtended(texts, w[0]);
      assert texts + w == texts + [w[0]];
    } else {
      assert texts + w == texts;
    }
  }

  lemma WrittenFaithful(channel: Channel, events: seq<Numbered>, p: Pending, phase: Phase)
    requires PendingOk(channel, events, p) && p.text != ""
    ensures Faithful(events, Text(channel, p.text, phase, p.from, p.through))
  {
    assert StreamedIn(channel, events, p.from, p.through) == p.text;
  }

  lemma CommentaryClosed(channel: Channel, events: seq<Numbered>, n: Numbered, entries: seq<Entry>, p: Pending)
    requires Increasing(events + [n]) && ChannelOk(channel, events, entries, p) && !IsDelta(channel, n.event)
    ensures ChannelOk(channel, events + [n], entries + Written(p, channel, Commentary), NOTHING_PENDING)
  {
    CloseStep(channel, events, entries, p, Commentary);
    var after := entries + Written(p, channel, Commentary);
    AppendedFacts(channel, events, n);
    EarlierTexts(channel, events, n, after);
    assert Joined(Texts(channel, after)) + "" == Joined(Texts(channel, after));
    assert Streamed(channel, events) + "" == Streamed(channel, events);
  }

  lemma OtherEntriesIgnored(channel: Channel, entries: seq<Entry>, extra: seq<Entry>)
    requires forall e | e in extra :: !OnChannel(channel, e)
    ensures Texts(channel, entries + extra) == Texts(channel, entries)
  {
    TextsAppend(channel, entries, extra);
    NoTexts(channel, extra);
  }

  lemma {:induction false} NoTexts(channel: Channel, extra: seq<Entry>)
    requires forall e | e in extra :: !OnChannel(channel, e)
    ensures Texts(channel, extra) == []
  {
    if extra != [] {
      assert Last(extra) in extra;
      NoTexts(channel, extra[..|extra| - 1]);
    }
  }

  /** What one step appends for a channel, as far as that channel's texts are concerned. */
  lemma StepTexts(channel: Channel, f: Fold, n: Numbered, mine: seq<Entry>)
    requires mine == if Closes(channel, n.event) then Written(Of(f, channel), channel, Commentary) else []
    ensures Texts(channel, Stepped(f, n).entries) == Texts(channel, f.entries + mine)
  {
    hide Texts;
    hide Collect;
    var other := if channel == Assistant then Reasoning else Assistant;
    var theirs := if Closes(other, n.event) then Written(Of(f, other), other, Commentary) else [];
    var extra := OtherEntries(n);
    var g := Stepped(f, n);
    SteppedEntries(f, n);
    hide Stepped;
    hide Closes;
    if channel == Assistant {
      assert g.entries == ((f.entries + mine) + theirs) + extra;
      OtherEntriesIgnored(channel, f.entries + mine, theirs);
      OtherEntriesIgnored(channel, (f.entries + mine) + theirs, extra);
    } else {
      assert g.entries == ((f.entries + theirs) + mine) + extra;
      OtherEntriesIgnored(channel, f.entries, theirs);
      TextsAppend(channel, f.entries + theirs, mine);
      TextsAppend(channel, f.entries, mine);
      OtherEntriesIgnored(channel, (f.entries + theirs) + mine, extra);
    }
  }

  lemma SteppedEntries(f: Fold, n: Numbered)
    ensures Stepped(f, n).entries ==
            f.entries
            + (if Closes(Assistant, n.event) then Written(f.assistant, Assistant, Commentary) else [])
            + (if Closes(Reasoning, n.event) then Written(f.reasoning, Reasoning, Commentary) else [])
            + OtherEntries(n)
  {
    hide Written;
    hide OtherEntries;
  }

  lemma StepChannel(channel: Channel, events: seq<Numbered>, f: Fold, n: Numbered)
    requires Increasing(events + [n]) && ChannelOk(channel, events, f.entries, Of(f, channel))
    ensures ChannelOk(channel, events + [n], Stepped(f, n).entries, Of(Stepped(f, n), channel))
  {
    hide ChannelOk;
    hide Written;
    hide Increasing;
    hide OtherEntries;
    var p := Of(f, channel);
    var mine := if Closes(channel, n.event) then Written(p, channel, Commentary) else [];
    var g := Stepped(f, n);
    StepTexts(channel, f, n, mine);
    if Closes(channel, n.event) {
      CommentaryClosed(channel, events, n, f.entries, p);
      assert Of(g, channel) == NOTHING_PENDING;
    } else {
      CollectStep(channel, events, f.entries, p, n);
      assert f.entries + [] == f.entries;
      assert Of(g, channel) == Collect(p, channel, n);
    }
    hide Stepped;
    SameTexts(channel, events + [n], f.entries + mine, g.entries, Of(g, channel));
  }

  lemma SameTexts(channel: Channel, events: seq<Numbered>, a: seq<Entry>, b: seq<Entry>, p: Pending)
    requires ChannelOk(channel, events, a, p) && Texts(channel, a) == Texts(channel, b)
    ensures ChannelOk(channel, events, b, p)
  {
  }

  lemma {:induction false} FoldKeeps(channel: Channel, events: seq<Numbered>)
    requires Increasing(events)
    ensures ChannelOk(channel, events, Folded(events).entries, Of(Folded(events), channel))
  {
    if events != [] {
      var front := events[..|events| - 1];
      assert events == front + [Last(events)];
      FoldKeeps(channel, front);
      StepChannel(channel, front, Folded(front), Last(events));
    }
  }

  lemma FinishedTexts(channel: Channel, events: seq<Numbered>)
    ensures Texts(channel, Transcript(events)) ==
            Texts(channel, Folded(events).entries + Written(Of(Folded(events), channel), channel, Final))
  {
    var f := Folded(events);
    var a, r := Written(f.assistant, Assistant, Final), Written(f.reasoning, Reasoning, Final);
    assert Transcript(events) == (f.entries + a) + r;
    if channel == Assistant {
      OtherEntriesIgnored(channel, f.entries + a, r);
    } else {
      OtherEntriesIgnored(channel, f.entries, a);
      TextsAppend(channel, f.entries + a, r);
      TextsAppend(channel, f.entries, r);
    }
  }

  /** Conservation: for every stream, however the run ended, the entries of a channel join up
      to exactly the text streamed on it, each entry holds exactly the text of its own span,
      and spans are disjoint and in order. */
  lemma TextConserved(channel: Channel, events: seq<Numbered>)
    requires Increasing(events)
    ensures var texts := Texts(channel, Transcript(events));
            && Joined(texts) == Streamed(channel, events)
            && Ordered(texts)
            && forall e | e in texts :: Faithful(events, e)
  {
    FoldKeeps(channel, events);
    FinishedTexts(channel, events);
    CloseStep(channel, events, Folded(events).entries, Of(Folded(events), channel), Final);
  }

  /** At most one assistant entry is final: the last one, and only if text was still pending
      when the stream ended. */
  lemma FinalIsPending(events: seq<Numbered>, i: nat)
    requires Increasing(events) && i < |Texts(Assistant, Transcript(events))|
    ensures var texts := Texts(Assistant, Transcript(events));
            OnChannel(Assistant, texts[i])
            && (texts[i].phase == Final <==> i == |texts| - 1 && Folded(events).assistant.text != "")
  {
    hide Transcript;
    hide Folded;
    hide Texts;
    hide ChannelOk;
    hide Increasing;
    FoldKeeps(Assistant, events);
    FinishedTexts(Assistant, events);
    var f := Folded(events);
    CloseStep(Assistant, events, f.entries, f.assistant, Final);
    FoldCommentary(events, f.entries, f.assistant);
    var before := Texts(Assistant, f.entries);
    assert i < |before| ==> before[i] in before;
  }

  lemma FoldCommentary(events: seq<Numbered>, entries: seq<Entry>, p: Pending)
    requires ChannelOk(Assistant, events, entries, p)
    ensures forall e | e in Texts(Assistant, entries) :: e.phase == Commentary
  {
  }
}

/** Editing and regenerating the turns of one conversation, and claiming the replacement message. */
module Turns {
  import opened Basics
  import opened ChatContents

  const TRANSCRIPT_PAGE: nat := 1000

  datatype Kind = Message | Compaction | OtherKind
  datatype Role = User | Assistant | OtherRole

  datatype Content = Content(
    text: Option<string>,
    runId: Option<string>,
    eventSequence: Option<nat>,
    phase: Option<string>,
    index: Option<Index>,
    rest: string)

  datatype Entry = Entry(id: string, sequence: nat, kind: Kind, role: Option<Role>, content: Content)

  predicate IsUser(e: Entry) {
    e.kind == Message && e.role == Some(User)
  }

  predicate IsFinalAnswer(e: Entry) {
    e.kind == Message && e.role == Some(Assistant) && e.content.phase == Some("final")
  }

  /** Entries in the order of their sequence numbers, each with its own id. */
  ghost predicate Ordered(entries: seq<Entry>) {
    && (forall i :: 0 <= i < |entries| ==> entries[i].sequence > 0)
    && (forall i, j :: 0 <= i < j < |entries| ==> entries[i].sequence < entries[j].sequence)
    && forall i, j :: 0 <= i < j < |entries| ==> entries[i].id != entries[j].id
  }

  // ----- queries of the store -----

  function After(entries: seq<Entry>, sequence: nat): (later: seq<Entry>)
    ensures |later| <= |entries|
  {
    if entries == [] then []
    else (if entries[0].sequence > sequence then [entries[0]] else []) + After(entries[1..], sequence)
  }

  function Before(entries: seq<Entry>, sequence: nat): seq<Entry> {
    if entries == [] then []
    else (if entries[0].sequence < sequence then [entries[0]] else []) + Before(entries[1..], sequence)
  }

  /** The highest sequence number in use, 0 for none. */
  function Highest(entries: seq<Entry>): (highest: nat)
    ensures forall i :: 0 <= i < |entries| ==> entries[i].sequence <= highest
    ensures if entries == [] then highest == 0 else exists i :: 0 <= i < |entries| && entries[i].sequence == highest
  {
    if entries == [] then 0
    else
      var front := entries[..|entries| - 1];
      var rest := Highest(front);
      assert forall i :: 0 <= i < |front| ==> front[i] == entries[i];
      assert entries[|entries| - 1] == Last(entries);
      Max(rest, Last(entries).sequence)
  }

  lemma {:induction false} AfterIsSuffix(entries: seq<Entry>, k: nat, sequence: nat)
    requires k <= |entries|
    requires forall i :: 0 <= i < |entries| ==> (entries[i].sequence > sequence <==> k <= i)
    ensures After(entries, sequence) == entries[k..]
  {
    if entries != [] {
      var rest := entries[1..];
      assert forall i :: 0 <= i < |rest| ==> rest[i] == entries[i + 1];
      if k == 0 {
        AfterIsSuffix(rest, 0, sequence);
        assert entries == [entries[0]] + rest;
      } else {
        AfterIsSuffix(rest, k - 1, sequence);
        assert rest[k - 1..] == entries[k..];
      }
    }
  }

  lemma {:induction false} BeforeIsPrefix(entries: seq<Entry>, k: nat, sequence: nat)
    requires k <= |entries|
    requires forall i :: 0 <= i < |entries| ==> (entries[i].sequence < sequence <==> i < k)
    ensures Before(entries, sequence) == entries[..k]
  {
    if entries != [] {
      var rest := entries[1..];
      assert forall i :: 0 <= i < |rest| ==> rest[i] == entries[i + 1];
      if k == 0 {
        BeforeIsPrefix(rest, 0, sequence);
      } else {
        BeforeIsPrefix(rest, k - 1, sequence);
        assert [entries[0]] + rest[..k - 1] == entries[..k];
      }
    }
  }

  lemma HighestIsLast(entries: seq<Entry>)
    requires Ordered(entries)
    ensures Highest(entries) == if entries == [] then 0 else Last(entries).sequence
  {
    if entries != [] {
      var i :| 0 <= i < |entries| && entries[i].sequence == Highest(entries);
      assert entries[|entries| - 1].sequence <= Highest(entries);
    }
  }

  // ----- finding an entry -----

  /** What an entry is searched by. */
  datatype Query =
    | WithId(id: string)
    | Numbered(sequence: nat)
    | OfRun(runId: string)
    | Saying(text: string)
    | UserMessage
    | FinalAnswer

  predicate Matches(e: Entry, query: Query) {
    match query
    case WithId(id) => e.id == id
    case Numbered(sequence) => e.sequence == sequence
    case OfRun(runId) => e.content.runId == Some(runId)
    case Saying(text) => IsUser(e) && e.content.text == Some(text)
    case UserMessage => IsUser(e)
    case FinalAnswer => IsFinalAnswer(e)
  }

  function FirstWhere(entries: seq<Entry>, query: Query): (found: Option<nat>)
    ensures found.None? <==> forall i :: 0 <= i < |entries| ==> !Matches(entries[i], query)
    ensures found.Some? ==> found.value < |entries| && Matches(entries[found.value], query)
                            && forall i :: 0 <= i < found.value ==> !Matches(entries[i], query)
  {
    FirstFrom(entries, query, 0)
  }

  function FirstFrom(entries: seq<Entry>, query: Query, start: nat): (found: Option<nat>)
    requires start <= |entries|
    ensures found.None? <==> forall i :: start <= i < |entries| ==> !Matches(entries[i], query)
    ensures found.Some? ==> start <= found.value < |entries| && Matches(entries[found.value], query)
                            && forall i :: start <= i < found.value ==> !Matches(entries[i], query)
    decreases |entries| - start
  {
    if start == |entries| then None
    else if Matches(entries[start], query) then Some(start)
    else FirstFrom(entries, query, start + 1)
  }

  function LastWhere(entries: seq<Entry>, query: Query): (found: Option<nat>)
    ensures found.None? <==> forall i :: 0 <= i < |entries| ==> !Matches(entries[i], query)
    ensures found.Some? ==> found.value < |entries| && Matches(entries[found.value], query)
                            && forall i :: found.value < i < |entries| ==> !Matches(entries[i], query)
  {
    if entries == [] then None
    else if Matches(Last(entries), query) then Some(|entries| - 1)
    else
      var front := entries[..|entries| - 1];
      assert forall i :: 0 <= i < |front| ==> front[i] == entries[i];
      LastWhere(front, query)
  }

  datatype EditRequest = EditRequest(text: string, originalText: Option<string>, messageId: Option<string>, sequence: Option<nat>)

  function UserAt(entries: seq<Entry>, found: Option<nat>): (target: Option<nat>)
    requires found.Some? ==> found.value < |entries|
    ensures target.Some? ==> target == found && IsUser(entries[target.value])
  {
    if found.Some? && IsUser(entries[found.value]) then found else None
  }

  /** The message an edit names: by id, else by sequence, else by its old text, else the last one. */
  function Named(entries: seq<Entry>, request: EditRequest): (target: Option<nat>)
    ensures target.Some? ==> target.value < |entries| && IsUser(entries[target.value])
  {
    if request.messageId.Some? && request.messageId.value != "" then
      UserAt(entries, FirstWhere(entries, WithId(request.messageId.value)))
    else if request.sequence.Some? then
      UserAt(entries, FirstWhere(entries, Numbered(request.sequence.value)))
    else if request.originalText.Some? then
      LastWhere(entries, Saying(request.originalText.value))
    else
      LastWhere(entries, UserMessage)
  }

  // ----- the two operations -----

  datatype TurnError =
    | AssistantNotFound
    | RunActive
    | NotLatestAssistant
    | UserMessageNotFound
    | PromptUnavailable

  datatype Turn = Turn(entries: seq<Entry>, prompt: string, replacement: Entry, removed: nat)
  datatype Outcome = Ok(turn: Turn) | Err(error: TurnError)

  /** Saving a message keeps an index that fits the text's length and computes it otherwise. */
  function Indexed(content: Content, markup: Markup): Content {
    if content.text.None? || (content.index.Some? && Fits(content.index.value, |content.text.value|)) then content
    else content.(index := Some(Parsed(content.text.value, markup)))
  }

  function Replacement(target: Entry, prompt: string, sequence: nat, markup: Markup): Entry {
    Entry(target.id, sequence, Message, Some(User),
          Indexed(target.content.(runId := None, eventSequence := None, text := Some(prompt)), markup))
  }

  function Cut(entries: seq<Entry>, at: nat, prompt: string, markup: Markup): Turn
    requires at < |entries|
  {
    var kept := entries[..at];
    var replacement := Replacement(entries[at], prompt, Highest(kept) + 1, markup);
    Turn(kept + [replacement], prompt, replacement, |entries| - at)
  }

  function Edited(entries: seq<Entry>, busy: bool, request: EditRequest, markup: Markup): Outcome {
    if busy then Err(RunActive)
    else
      var target := Named(entries, request);
      if target.None? then Err(UserMessageNotFound)
      else if Trim(request.text) == "" then Err(PromptUnavailable)
      else Ok(Cut(entries, target.value, Trim(request.text), markup))
  }

  /** The last user message before an entry. */
  function Prompting(entries: seq<Entry>, first: nat): (user: Option<nat>)
    requires first <= |entries|
    ensures user.None? <==> forall i :: 0 <= i < first ==> !IsUser(entries[i])
    ensures user.Some? ==> user.value < first && IsUser(entries[user.value])
                           && forall i :: user.value < i < first ==> !IsUser(entries[i])
  {
    if first == 0 then None
    else if IsUser(entries[first - 1]) then Some(first - 1)
    else Prompting(entries, first - 1)
  }

  function Regenerated(entries: seq<Entry>, known: bool, busy: bool, runId: string, markup: Markup): Outcome {
    if !known then Err(AssistantNotFound)
    else if busy then Err(RunActive)
    else
      var latest := LastWhere(entries, FinalAnswer);
      if latest.None? || entries[latest.value].content.runId != Some(runId) then Err(NotLatestAssistant)
      else
        var first := FirstWhere(entries, OfRun(runId));
        var user := Prompting(entries, first.value);
        if user.None? then Err(PromptUnavailable)
        else
          var text := entries[user.value].content.text;
          if text.None? || Trim(text.value) == "" then Err(PromptUnavailable)
          else Ok(Cut(entries, user.value, Trim(text.value), markup))
  }

  // ----- what they leave behind -----

  /** An entry that is new and numbered behind all others may be added. */
  lemma MayAppend(entries: seq<Entry>, e: Entry)
    requires Ordered(entries) && e.sequence > Highest(entries) && forall i :: 0 <= i < |entries| ==> entries[i].id != e.id
    ensures Ordered([]) && Ordered(entries + [e])
  {
    hide Highest;
    assert forall i :: 0 <= i < |entries| ==> (entries + [e])[i] == entries[i];
  }

  lemma CutOrdered(entries: seq<Entry>, at: nat, prompt: string, markup: Markup)
    requires Ordered(entries) && at < |entries|
    ensures var turn := Cut(entries, at, prompt, markup);
            && Ordered(turn.entries) && turn.entries == entries[..at] + [turn.replacement]
            && turn.prompt == prompt && turn.replacement.sequence <= entries[at].sequence
            && turn.replacement.id == entries[at].id && IsUser(turn.replacement)
            && turn.replacement.content.text == Some(prompt)
            && turn.replacement.content.runId.None? && turn.replacement.content.eventSequence.None?
            && turn.replacement.content.phase == entries[at].content.phase
            && turn.replacement.content.rest == entries[at].content.rest
  {
    hide Parsed;
    hide Fits;
    HighestIsLast(entries[..at]);
  }

  /** The first entry with a property, as a position. */
  predicate FirstNumbered(entries: seq<Entry>, sequence: nat, at: int) {
    0 <= at < |entries| && entries[at].sequence == sequence && forall i :: 0 <= i < at ==> entries[i].sequence != sequence
  }

  predicate FirstCalled(entries: seq<Entry>, id: string, at: int) {
    0 <= at < |entries| && entries[at].id == id && forall i :: 0 <= i < at ==> entries[i].id != id
  }

  predicate FromUser(e: Entry) {
    e.kind == Message && e.role == Some(User)
  }

  predicate LastSaying(entries: seq<Entry>, text: string, at: int) {
    0 <= at < |entries| && FromUser(entries[at]) && entries[at].content.text == Some(text)
    && forall i :: at < i < |entries| ==> !(FromUser(entries[i]) && entries[i].content.text == Some(text))
  }

  predicate LastFromUser(entries: seq<Entry>, at: int) {
    0 <= at < |entries| && FromUser(entries[at]) && forall i :: at < i < |entries| ==> !FromUser(entries[i])
  }

  /** Which message a request names. An id that is given and not empty decides alone, then a
      sequence number, then the old text; the first two must hit a user's message, the old text
      picks the last user's message saying it. A request without any names the last one. */
  predicate Names(entries: seq<Entry>, request: EditRequest, at: int) {
    if request.messageId.Some? && request.messageId.value != "" then
      FirstCalled(entries, request.messageId.value, at) && FromUser(entries[at])
    else if request.sequence.Some? then
      FirstNumbered(entries, request.sequence.value, at) && FromUser(entries[at])
    else if request.originalText.Some? then LastSaying(entries, request.originalText.value, at)
    else LastFromUser(entries, at)
  }

  lemma NamedExactly(entries: seq<Entry>, request: EditRequest)
    ensures forall at :: Names(entries, request, at) <==> Named(entries, request) == Some(at)
  {
    hide FirstWhere;
    hide LastWhere;
    if request.messageId.Some? && request.messageId.value != "" {
      var query := WithId(request.messageId.value);
      var found := FirstWhere(entries, query);
      assert forall i :: 0 <= i < |entries| ==> (Matches(entries[i], query) <==> entries[i].id == request.messageId.value);
    } else if request.sequence.Some? {
      var query := Numbered(request.sequence.value);
      var found := FirstWhere(entries, query);
      assert forall i :: 0 <= i < |entries| ==> (Matches(entries[i], query) <==> entries[i].sequence == request.sequence.value);
    } else if request.originalText.Some? {
      var query := Saying(request.originalText.value);
      var found := LastWhere(entries, query);
      assert forall i :: 0 <= i < |entries| ==>
               (Matches(entries[i], query) <==> FromUser(entries[i]) && entries[i].content.text == request.originalText);
    } else {
      var found := LastWhere(entries, UserMessage);
      assert forall i :: 0 <= i < |entries| ==> (Matches(entries[i], UserMessage) <==> FromUser(entries[i]));
    }
  }

  /** An edit leaves the entries before the named message and one replacement for it, under the
      same id and belonging to no run; it fails exactly when a run is active, the message is not
      there or the new text is blank. */
  lemma EditExactly(entries: seq<Entry>, busy: bool, request: EditRequest, markup: Markup)
    requires Ordered(entries)
    ensures var outcome := Edited(entries, busy, request, markup);
            && (outcome.Ok? <==> !busy && Trim(request.text) != "" && exists at :: Names(entries, request, at))
            && (outcome.Ok? ==>
                  exists at ::
                    && Names(entries, request, at)
                    && Ordered(outcome.turn.entries)
                    && outcome.turn.entries == entries[..at] + [outcome.turn.replacement]
                    && outcome.turn.removed == |entries| - at
                    && outcome.turn.replacement.id == entries[at].id
                    && FromUser(outcome.turn.replacement)
                    && outcome.turn.replacement.content.text == Some(Trim(request.text))
                    && outcome.turn.replacement.content.runId.None?)
  {
    hide Parsed;
    hide Fits;
    hide Named;
    hide Trim;
    hide Names;
    NamedExactly(entries, request);
    var target := Named(entries, request);
    if target.Some? {
      assert Names(entries, request, target.value);
      CutOrdered(entries, target.value, Trim(request.text), markup);
      hide Cut;
    }
  }

  /** Why an edit is refused: the first that applies of a run under way, no message of that name, and a
      blank text. */
  lemma EditRefusedExactly(entries: seq<Entry>, busy: bool, request: EditRequest, markup: Markup)
    ensures var outcome := Edited(entries, busy, request, markup);
            !outcome.Ok? ==>
              outcome == Err(if busy then RunActive
                             else if !exists at :: Names(entries, request, at) then UserMessageNotFound
                             else PromptUnavailable)
  {
    hide Names;
    hide Named;
    hide Trim;
    hide Cut;
    NamedExactly(entries, request);
  }

  /** The latest final answer belongs to the run. */
  ghost predicate LatestAnswerOf(entries: seq<Entry>, runId: string) {
    exists k :: && 0 <= k < |entries| && AnswersFinally(entries[k]) && entries[k].content.runId == Some(runId)
                && forall j :: k < j < |entries| ==> !AnswersFinally(entries[j])
  }

  predicate AnswersFinally(e: Entry) {
    e.kind == Message && e.role == Some(Assistant) && e.content.phase == Some("final")
  }

  predicate RunIn(entries: seq<Entry>, runId: string, from: nat, to: nat)
    requires to <= |entries|
  {
    exists i :: from <= i < to && entries[i].content.runId == Some(runId)
  }

  /** The last user message before the first entry of the run. */
  ghost predicate PromptsRun(entries: seq<Entry>, runId: string, at: int) {
    && 0 <= at < |entries| && FromUser(entries[at])
    && !RunIn(entries, runId, 0, at + 1)
    && forall j :: at < j < |entries| && FromUser(entries[j]) ==> RunIn(entries, runId, at + 1, j + 1)
  }

  predicate HasText(e: Entry) {
    e.content.text.Some? && Trim(e.content.text.value) != ""
  }

  lemma PromptingIs(entries: seq<Entry>, runId: string)
    requires FirstWhere(entries, OfRun(runId)).Some?
    ensures var user := Prompting(entries, FirstWhere(entries, OfRun(runId)).value);
            forall at: int :: PromptsRun(entries, runId, at) <==> user.Some? && at == user.value
  {
    hide FirstWhere;
    hide Prompting;
    var first := FirstWhere(entries, OfRun(runId)).value;
    var user := Prompting(entries, first);
    assert Matches(entries[first], OfRun(runId));
    forall i | 0 <= i < first
      ensures entries[i].content.runId != Some(runId)
    {
      assert !Matches(entries[i], OfRun(runId));
    }
    forall from: nat, to: nat | to <= first
      ensures !RunIn(entries, runId, from, to)
    {
    }
    forall at: int | PromptsRun(entries, runId, at)
      ensures user.Some? && at == user.value
    {
      assert at < first;
    }
    if user.Some? {
      forall j | user.value < j < |entries| && FromUser(entries[j])
        ensures RunIn(entries, runId, user.value + 1, j + 1)
      {
        assert first <= j;
      }
    }
  }

  lemma LatestIs(entries: seq<Entry>, runId: string)
    ensures var latest := LastWhere(entries, FinalAnswer);
            LatestAnswerOf(entries, runId) <==> latest.Some? && entries[latest.value].content.runId == Some(runId)
    ensures LatestAnswerOf(entries, runId) ==> FirstWhere(entries, OfRun(runId)).Some?
  {
    hide LastWhere;
    hide FirstWhere;
    var latest := LastWhere(entries, FinalAnswer);
    if k :| 0 <= k < |entries| && AnswersFinally(entries[k]) && entries[k].content.runId == Some(runId)
            && forall j :: k < j < |entries| ==> !AnswersFinally(entries[j]) {
      assert Matches(entries[k], FinalAnswer) && Matches(entries[k], OfRun(runId));
      assert forall j :: 0 <= j < |entries| ==> (Matches(entries[j], FinalAnswer) <==> AnswersFinally(entries[j]));
    }
    if latest.Some? {
      assert Matches(entries[latest.value], FinalAnswer);
      forall j | latest.value < j < |entries|
        ensures !AnswersFinally(entries[j])
      {
        assert !Matches(entries[j], FinalAnswer);
      }
    }
  }

  /** Regenerating succeeds exactly for a known run of a conversation with no run under way whose
      latest final answer it gave, when the last user message before the run has a text. */
  lemma RegenerateExactly(entries: seq<Entry>, known: bool, busy: bool, runId: string, markup: Markup)
    ensures Regenerated(entries, known, busy, runId, markup).Ok? <==>
            known && !busy && LatestAnswerOf(entries, runId)
            && exists at: int :: PromptsRun(entries, runId, at) && HasText(entries[at])
  {
    hide LastWhere;
    hide FirstWhere;
    hide Prompting;
    hide Cut;
    hide Trim;
    hide PromptsRun;
    hide LatestAnswerOf;
    LatestIs(entries, runId);
    if LatestAnswerOf(entries, runId) {
      PromptingIs(entries, runId);
    }
  }

  /** Why regenerating is refused: the first that applies of a run that is not known, a run under way,
      a latest final answer of another run, and no user message with a text before the run. */
  lemma RegenerateRefusedExactly(entries: seq<Entry>, known: bool, busy: bool, runId: string, markup: Markup)
    ensures var outcome := Regenerated(entries, known, busy, runId, markup);
            !outcome.Ok? ==>
              outcome == Err(if !known then AssistantNotFound
                             else if busy then RunActive
                             else if !LatestAnswerOf(entries, runId) then NotLatestAssistant
                             else PromptUnavailable)
  {
    hide LastWhere;
    hide FirstWhere;
    hide Prompting;
    hide Cut;
    hide Trim;
    hide LatestAnswerOf;
    LatestIs(entries, runId);
  }

  /** Regenerating the latest answer erases its whole run: no entry of the run remains, and what
      remains is the conversation before the message that prompted it, followed by that message. */
  lemma RegenerateErasesRun(entries: seq<Entry>, runId: string, markup: Markup)
    requires Ordered(entries) && Regenerated(entries, true, false, runId, markup).Ok?
    ensures var turn := Regenerated(entries, true, false, runId, markup).turn;
            && Ordered(turn.entries)
            && (forall e :: e in turn.entries ==> e.content.runId != Some(runId))
            && exists at: int :: && PromptsRun(entries, runId, at) && HasText(entries[at])
                    && turn.entries == entries[..at] + [turn.replacement]
                    && turn.removed == |entries| - at
                    && turn.replacement.id == entries[at].id
                    && turn.replacement.content.text == Some(turn.prompt)
                    && turn.prompt == Trim(entries[at].content.text.value)
  {
    hide Parsed;
    hide Fits;
    hide Highest;
    hide PromptsRun;
    hide LastWhere;
    hide Trim;
    var first := FirstWhere(entries, OfRun(runId)).value;
    var at := Prompting(entries, first).value;
    var turn := Regenerated(entries, true, false, runId, markup).turn;
    assert turn == Cut(entries, at, Trim(entries[at].content.text.value), markup);
    PromptingIs(entries, runId);
    CutOrdered(entries, at, turn.prompt, markup);
    hide Cut;
    hide Regenerated;
    forall e | e in turn.entries
      ensures e.content.runId != Some(runId)
    {
      var i :| 0 <= i < |turn.entries| && turn.entries[i] == e;
      if i < at {
        assert e == entries[i] && !Matches(entries[i], OfRun(runId));
      }
    }
    assert turn.entries == entries[..at] + [turn.replacement];
  }

  lemma FoundByPosition(entries: seq<Entry>, at: nat, id: string)
    requires Ordered(entries) && at < |entries| && entries[at].id == id
    ensures FirstWhere(entries, WithId(id)) == Some(at)
  {
    var found := FirstWhere(entries, WithId(id));
    assert Matches(entries[at], WithId(id));
    assert entries[found.value].id == entries[at].id;
  }

  ghost predicate SameButIndex(a: seq<Entry>, b: seq<Entry>) {
    && |a| == |b|
    && forall i :: 0 <= i < |a| ==> a[i].(content := a[i].content.(index := None)) == b[i].(content := b[i].content.(index := None))
  }

  predicate IndexFits(index: Option<Index>, length: nat) {
    index.Some? && Fits(index.value, length)
  }

  /** The stored index a message ends with when its text is replaced. */
  function IndexAfter(index: Option<Index>, prompt: string, markup: Markup): Option<Index> {
    if IndexFits(index, |prompt|) then index else Some(Parsed(prompt, markup))
  }

  /** When editing a message twice does not leave the index that the last edit alone would: a
      first text of the same length leaves its own blocks, one of another length drops an index
      that the last edit alone would have kept. */
  predicate IndexLingers(index: Option<Index>, first: string, second: string, markup: Markup) {
    if |first| == |second| then !IndexFits(index, |first|) && Parsed(first, markup) != Parsed(second, markup)
    else IndexFits(index, |second|) && index.value != Parsed(second, markup)
  }

  lemma IndexTwice(index: Option<Index>, first: string, second: string, markup: Markup)
    requires WellShaped(markup)
    ensures IndexAfter(IndexAfter(index, first, markup), second, markup) == IndexAfter(index, second, markup)
            <==> !IndexLingers(index, first, second, markup)
  {
    hide Parsed;
    hide Fits;
    ParsedFitsExactly(first, markup, |second|);
    if IndexFits(index, |first|) && IndexFits(index, |second|) {
      OneLength(index.value, |first|, |second|);
    }
  }

  /** Two edits of one message leave the conversation of the second alone, except perhaps for the
      message's stored block index; that too, exactly when no old index of fitting length lingers. */
  lemma EditTwice(entries: seq<Entry>, request: EditRequest, second: string, markup: Markup)
    requires Ordered(entries) && request.messageId.Some? && request.messageId.value != "" && WellShaped(markup)
    requires Edited(entries, false, request, markup).Ok? && Trim(second) != ""
    ensures var first := Edited(entries, false, request, markup).turn;
            var twice := Edited(first.entries, false, request.(text := second), markup);
            var once := Edited(entries, false, request.(text := second), markup);
            && once.Ok? && twice.Ok? && twice.turn.removed == 1
            && SameButIndex(twice.turn.entries, once.turn.entries)
            && (twice.turn.entries == once.turn.entries <==>
                  !IndexLingers(entries[Named(entries, request).value].content.index,
                                Trim(request.text), Trim(second), markup))
  {
    hide Parsed;
    hide Fits;
    hide WellShaped;
    var at := Named(entries, request).value;
    var target := entries[at];
    var a, b := Trim(request.text), Trim(second);
    var first := Edited(entries, false, request, markup).turn;
    CutOrdered(entries, at, a, markup);
    assert first.entries[at] == first.replacement;
    FoundByPosition(first.entries, at, target.id);
    assert Named(entries, request.(text := second)) == Some(at);
    assert first.entries[..at] == entries[..at];
    EditTwiceAt(entries, at, a, b, markup);
  }

  lemma EditTwiceAt(entries: seq<Entry>, at: nat, a: string, b: string, markup: Markup)
    requires at < |entries| && WellShaped(markup)
    ensures var first := Cut(entries, at, a, markup);
            && at < |first.entries|
            && Cut(first.entries, at, b, markup).removed == 1
            && SameButIndex(Cut(first.entries, at, b, markup).entries, Cut(entries, at, b, markup).entries)
            && (Cut(first.entries, at, b, markup).entries == Cut(entries, at, b, markup).entries <==>
                  !IndexLingers(entries[at].content.index, a, b, markup))
  {
    hide Parsed;
    hide Fits;
    hide WellShaped;
    hide Highest;
    var first := Cut(entries, at, a, markup);
    var twice, once := Cut(first.entries, at, b, markup), Cut(entries, at, b, markup);
    assert first.entries[..at] == entries[..at];
    assert first.entries[at] == first.replacement;
    IndexTwice(entries[at].content.index, a, b, markup);
    assert twice.replacement.content.index == IndexAfter(IndexAfter(entries[at].content.index, a, markup), b, markup);
    assert once.replacement.content.index == IndexAfter(entries[at].content.index, b, markup);
    assert twice.entries[at] == twice.replacement && once.entries[at] == once.replacement;
    assert twice.replacement.(content := twice.replacement.content.(index := None))
        == once.replacement.(content := once.replacement.content.(index := None));
  }

  /** The index saved with a replacement is that of its own text unless the message had an index
      that fits a text of that length but has other blocks. */
  lemma IndexIsOwnExactly(entries: seq<Entry>, at: nat, prompt: string, markup: Markup)
    requires at < |entries|
    ensures var kept := entries[at].content.index;
            Cut(entries, at, prompt, markup).replacement.content.index == Some(Parsed(prompt, markup)) <==>
            !(IndexFits(kept, |prompt|) && kept.value != Parsed(prompt, markup))
  {
    hide Parsed;
    hide Fits;
  }

  /** A plain text edited into a formula of the same length keeps the plain text's blocks. */
  lemma StaleIndex(entries: seq<Entry>, at: nat, markup: Markup)
    requires at < |entries| && WellShaped(markup)
    requires markup.fence("ab").None? && markup.single("ab").None? && markup.fence("$$").None?
    requires entries[at].content.index == Some(Parsed("ab", markup))
    ensures Cut(entries, at, "$$", markup).replacement.content.index != Some(Parsed("$$", markup))
  {
    hide Parsed;
    hide Fits;
    SameLengthOtherBlocks(markup);
    IndexIsOwnExactly(entries, at, "$$", markup);
  }

  /** Searching by a number that all entries but the last are below finds the last or nothing. */
  lemma FoundBySequence(entries: seq<Entry>, at: nat, sequence: nat)
    requires |entries| == at + 1 && IsUser(entries[at])
    requires forall i :: 0 <= i < at ==> entries[i].sequence < sequence
    ensures UserAt(entries, FirstWhere(entries, Numbered(sequence))).Some? <==> entries[at].sequence == sequence
  {
    var found := FirstWhere(entries, Numbered(sequence));
    assert Matches(entries[at], Numbered(sequence)) <==> entries[at].sequence == sequence;
  }

  /** A message named by its sequence number can be named by it again after the edit exactly when
      no earlier number was free. */
  lemma SequenceStillNames(entries: seq<Entry>, request: EditRequest, markup: Markup)
    requires Ordered(entries) && request.sequence.Some? && (request.messageId.None? || request.messageId.value == "")
    requires Edited(entries, false, request, markup).Ok?
    ensures var at := Named(entries, request).value;
            Named(Edited(entries, false, request, markup).turn.entries, request).Some? <==>
            request.sequence.value == (if at == 0 then 1 else entries[at - 1].sequence + 1)
  {
    hide Parsed;
    hide Fits;
    hide Trim;
    hide Highest;
    var at := Named(entries, request).value;
    var turn := Edited(entries, false, request, markup).turn;
    CutOrdered(entries, at, Trim(request.text), markup);
    HighestIsLast(entries[..at]);
    assert turn.replacement.sequence == if at == 0 then 1 else entries[at - 1].sequence + 1;
    assert entries[at].sequence == request.sequence.value;
    FoundBySequence(turn.entries, at, request.sequence.value);
  }

  // ----- claiming the replacement for a new run -----

  datatype Claim = Claim(session: string, attachments: nat, messages: seq<Submitted>)
  datatype Submitted = UserText(text: string) | Otherwise

  datatype ClaimError = NoSession | HasAttachments | NotOneText | NotUserMessage | NewerActivity | ContentDiffers
  datatype Claimed = Claims(entry: Entry) | Refused(error: ClaimError)

  ghost predicate HasNewer(entries: seq<Entry>, entry: Entry) {
    exists e :: e in entries && e.sequence > entry.sequence && e.kind != Compaction
  }

  ghost function Claimable(entries: seq<Entry>, session: string, id: string, claim: Claim): Claimed {
    if claim.session == "" then Refused(NoSession)
    else if claim.attachments > 0 then Refused(HasAttachments)
    else if |claim.messages| != 1 || claim.messages[0].Otherwise? then Refused(NotOneText)
    else
      var found := FirstWhere(entries, WithId(id));
      if found.None? || claim.session != session || !IsUser(entries[found.value]) then Refused(NotUserMessage)
      else if HasNewer(entries, entries[found.value]) then Refused(NewerActivity)
      else if entries[found.value].content.text != Some(claim.messages[0].text) then Refused(ContentDiffers)
      else Claims(entries[found.value])
  }

  lemma NewerThan(entries: seq<Entry>, at: nat)
    requires Ordered(entries) && at < |entries|
    ensures HasNewer(entries, entries[at]) <==> ActiveIn(entries, at + 1, |entries|)
  {
    NewerFrom(entries, entries[at], at + 1);
  }

  lemma ActiveLater(first: seq<Entry>, later: seq<Entry>)
    ensures ActiveIn(first + later, |first|, |first + later|) <==> exists e :: e in later && e.kind != Compaction
  {
    var all := first + later;
    if e :| e in later && e.kind != Compaction {
      var j :| 0 <= j < |later| && later[j] == e;
      assert all[|first| + j].kind != Compaction;
    }
    if i :| |first| <= i < |all| && all[i].kind != Compaction {
      assert later[i - |first|] in later;
    }
  }

  /** A message is claimed exactly for its own conversation, without attachments, by one text that is
      the message's own, if it is the user's and nothing but compactions follows it. Otherwise the first
      of these rules that is broken is reported. */
  lemma ClaimExactly(entries: seq<Entry>, session: string, id: string, claim: Claim)
    ensures var claimed := Claimable(entries, session, id, claim);
            if claim.session == "" then claimed == Refused(NoSession)
            else if claim.attachments != 0 then claimed == Refused(HasAttachments)
            else if |claim.messages| != 1 || !claim.messages[0].UserText? then claimed == Refused(NotOneText)
            else if !exists at :: FirstCalled(entries, id, at) && FromUser(entries[at]) && claim.session == session
            then claimed == Refused(NotUserMessage)
            else
              exists at :: FirstCalled(entries, id, at) &&
                claimed ==
                if exists j :: 0 <= j < |entries| && entries[j].sequence > entries[at].sequence && entries[j].kind != Compaction
                then Refused(NewerActivity)
                else if entries[at].content.text != Some(claim.messages[0].text) then Refused(ContentDiffers)
                else Claims(entries[at])
  {
    hide FirstWhere;
    hide HasNewer;
    CalledIs(entries, id);
    var found := FirstWhere(entries, WithId(id));
    if found.Some? {
      NewerIs(entries, entries[found.value]);
    }
  }

  lemma CalledIs(entries: seq<Entry>, id: string)
    ensures forall at :: FirstCalled(entries, id, at) <==> FirstWhere(entries, WithId(id)) == Some(at)
  {
    hide FirstWhere;
    var found := FirstWhere(entries, WithId(id));
    assert forall i :: 0 <= i < |entries| ==> (Matches(entries[i], WithId(id)) <==> entries[i].id == id);
  }

  lemma NewerIs(entries: seq<Entry>, entry: Entry)
    ensures HasNewer(entries, entry) <==>
            exists j :: 0 <= j < |entries| && entries[j].sequence > entry.sequence && entries[j].kind != Compaction
  {
    if j :| 0 <= j < |entries| && entries[j].sequence > entry.sequence && entries[j].kind != Compaction {
      assert entries[j] in entries;
    }
  }

  /** The replacement an operation leaves can be claimed with its prompt, and stays claimable
      exactly while nothing but compactions follows it. */
  lemma ReplacementClaimable(entries: seq<Entry>, at: nat, prompt: string, later: seq<Entry>, session: string, markup: Markup)
    requires Ordered(entries) && at < |entries| && session != ""
    requires Ordered(Cut(entries, at, prompt, markup).entries + later)
    ensures var turn := Cut(entries, at, prompt, markup);
            Claimable(turn.entries + later, session, turn.replacement.id, Claim(session, 0, [UserText(turn.prompt)]))
            == if forall e :: e in later ==> e.kind == Compaction then Claims(turn.replacement)
               else Refused(NewerActivity)
  {
    hide Cut;
    hide Highest;
    hide Ordered;
    hide HasNewer;
    hide ActiveIn;
    hide Matches;
    var turn := Cut(entries, at, prompt, markup);
    CutOrdered(entries, at, prompt, markup);
    var all := turn.entries + later;
    assert all[at] == turn.replacement;
    FoundByPosition(all, at, turn.replacement.id);
    NewerThan(all, at);
    ActiveLater(turn.entries, later);
  }

  /** Some entry in a range is more than a compaction. */
  predicate ActiveIn(entries: seq<Entry>, from: nat, to: nat)
    requires to <= |entries|
  {
    exists i :: from <= i < to && entries[i].kind != Compaction
  }

  lemma ActiveJoin(entries: seq<Entry>, a: nat, b: nat, c: nat)
    requires a <= b <= c <= |entries|
    ensures ActiveIn(entries, a, c) <==> ActiveIn(entries, a, b) || ActiveIn(entries, b, c)
  {
  }

  /** Where the entries numbered above a sequence begin. */
  ghost function Split(entries: seq<Entry>, sequence: nat): (k: nat)
    requires Ordered(entries)
    ensures k <= |entries|
    ensures forall i :: 0 <= i < |entries| ==> (entries[i].sequence > sequence <==> k <= i)
  {
    if entries == [] || Last(entries).sequence <= sequence then |entries|
    else
      var front := entries[..|entries| - 1];
      assert forall i :: 0 <= i < |front| ==> front[i] == entries[i];
      Split(front, sequence)
  }

  /** Where the entries after a given one begin. */
  lemma NewerStart(entries: seq<Entry>, entry: Entry) returns (k: nat)
    requires Ordered(entries)
    ensures k <= |entries| && After(entries, entry.sequence) == entries[k..]
    ensures HasNewer(entries, entry) <==> ActiveIn(entries, k, |entries|)
  {
    k := Split(entries, entry.sequence);
    AfterIsSuffix(entries, k, entry.sequence);
    NewerFrom(entries, entry, k);
  }

  lemma PageIs(entries: seq<Entry>, k: nat, page: seq<Entry>)
    requires k <= |entries| && page == entries[k..][..Min(TRANSCRIPT_PAGE, |entries| - k)]
    ensures k + |page| <= |entries| && page == entries[k..k + |page|]
    ensures |page| == TRANSCRIPT_PAGE > 0 || (|page| < TRANSCRIPT_PAGE && k + |page| == |entries|)
  {
  }

  lemma NoneIn(entries: seq<Entry>)
    ensures !ActiveIn(entries, |entries|, |entries|)
  {
  }

  lemma ActivePage(entries: seq<Entry>, page: seq<Entry>, from: nat)
    requires from + |page| <= |entries| && page == entries[from..from + |page|]
    ensures ActiveIn(page, 0, |page|) <==> ActiveIn(entries, from, from + |page|)
  {
    assert forall i :: 0 <= i < |page| ==> page[i] == entries[from + i];
    if i :| from <= i < from + |page| && entries[i].kind != Compaction {
      assert page[i - from].kind != Compaction;
    }
  }

  lemma NewerFrom(entries: seq<Entry>, entry: Entry, k: nat)
    requires k <= |entries|
    requires forall i :: 0 <= i < |entries| ==> (entries[i].sequence > entry.sequence <==> k <= i)
    ensures HasNewer(entries, entry) <==> ActiveIn(entries, k, |entries|)
  {
    if HasNewer(entries, entry) {
      var e :| e in entries && e.sequence > entry.sequence && e.kind != Compaction;
      var i :| 0 <= i < |entries| && entries[i] == e;
      assert k <= i;
    }
    if i :| k <= i < |entries| && entries[i].kind != Compaction {
      assert entries[i] in entries;
    }
  }
}

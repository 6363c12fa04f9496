/** The turns of one stored conversation: paging, truncating and replacing in place. */
module Conversations {
  import opened Basics
  import opened ChatContents
  import opened Turns

  class Conversation {
    const session: string
    const markup: Markup
    var entries: seq<Entry>

    ghost predicate Valid()
      reads this
    {
      Ordered(entries)
    }

    constructor (session: string, markup: Markup)
      ensures Valid() && entries == [] && this.session == session && this.markup == markup
    {
      this.session := session;
      this.markup := markup;
      entries := [];
    }

    method TranscriptAfter(sequence: nat, limit: nat) returns (page: seq<Entry>)
      ensures page == After(entries, sequence)[..Min(limit, |After(entries, sequence)|)]
    {
      var later := After(entries, sequence);
      page := later[..Min(limit, |later|)];
    }

    /** Reading on from the last entry of a full page skips nothing. */
    lemma NextPage(k: nat, sequence: nat)
      requires Ordered(entries) && k <= |entries| && After(entries, sequence) == entries[k..] && |entries| - k >= TRANSCRIPT_PAGE
      ensures After(entries, entries[k + TRANSCRIPT_PAGE - 1].sequence) == entries[k + TRANSCRIPT_PAGE..]
    {
      AfterIsSuffix(entries, k + TRANSCRIPT_PAGE, entries[k + TRANSCRIPT_PAGE - 1].sequence);
    }

    /** Paging returns every entry once and in order, and ends. */
    method AllEntries() returns (all: seq<Entry>)
      requires Valid()
      ensures all == entries
    {
      all := [];
      var after := 0;
      AfterIsSuffix(entries, 0, 0);
      while true
        invariant |all| <= |entries| && all == entries[..|all|]
        invariant After(entries, after) == entries[|all|..]
        decreases |entries| - |all|
      {
        var page := TranscriptAfter(after, TRANSCRIPT_PAGE);
        if |page| == TRANSCRIPT_PAGE {
          NextPage(|all|, after);
        }
        assert entries[..|all|] + page == entries[..|all| + |page|];
        all := all + page;
        if |page| < TRANSCRIPT_PAGE {
          return;
        }
        after := page[|page| - 1].sequence;
      }
    }

    /** Whether anything but a compaction follows an entry, page by page. */
    method HasNewerActivity(entry: Entry) returns (newer: bool)
      requires Ordered(entries)
      ensures newer <==> HasNewer(entries, entry)
    {
      hide *;
      var after := entry.sequence;
      ghost var k := NewerStart(entries, entry);
      while true
        invariant k <= |entries| && After(entries, after) == entries[k..] && Ordered(entries)
        invariant HasNewer(entries, entry) <==> ActiveIn(entries, k, |entries|)
        decreases |entries| - k
      {
        var page := TranscriptAfter(after, TRANSCRIPT_PAGE);
        ghost var next := k + |page|;
        PageIs(entries, k, page);
        ActivePage(entries, page, k);
        ActiveJoin(entries, k, next, |entries|);
        if ActiveIn(page, 0, |page|) {
          return true;
        }
        if |page| < TRANSCRIPT_PAGE {
          NoneIn(entries);
          return false;
        }
        NextPage(k, after);
        k := next;
        after := page[|page| - 1].sequence;
      }
    }

    /** Deletes the entries numbered from a sequence on. */
    method DeleteFrom(sequence: nat) returns (removed: nat)
      modifies this`entries
      ensures entries == Before(old(entries), sequence)
      ensures removed == |old(entries)| - |entries|
    {
      BeforeShorter(entries, sequence);
      removed := |entries| - |Before(entries, sequence)|;
      entries := Before(entries, sequence);
    }

    lemma {:induction false} BeforeShorter(list: seq<Entry>, sequence: nat)
      ensures |Before(list, sequence)| <= |list|
    {
      if list != [] {
        BeforeShorter(list[1..], sequence);
      }
    }

    method AppendReplacement(target: Entry, prompt: string) returns (replacement: Entry)
      modifies this`entries
      ensures replacement == Replacement(target, prompt, Highest(old(entries)) + 1, markup)
      ensures entries == old(entries) + [replacement]
    {
      var retained := target.content.(runId := None, eventSequence := None, text := Some(prompt));
      replacement := Entry(target.id, Highest(entries) + 1, Message, Some(User), Indexed(retained, markup));
      entries := entries + [replacement];
    }

    /** Cuts the conversation at an entry and puts its replacement there. */
    method Replace(at: nat, prompt: string) returns (turn: Turn)
      requires Valid() && at < |entries|
      modifies this`entries
      ensures Valid() && turn == Cut(old(entries), at, prompt, markup) && entries == turn.entries && turn.removed >= 1
    {
      ghost var before := entries;
      var target := entries[at];
      BeforeIsPrefix(entries, at, target.sequence);
      CutOrdered(entries, at, prompt, markup);
      var removed := DeleteFrom(target.sequence);
      var replacement := AppendReplacement(target, prompt);
      turn := Turn(entries, prompt, replacement, removed);
    }

    /** Either the whole edit happens or nothing changes. */
    method EditUserTurn(busy: bool, request: EditRequest) returns (outcome: Outcome)
      requires Valid()
      modifies this`entries
      ensures Valid() && outcome == Edited(old(entries), busy, request, markup)
      ensures entries == if outcome.Ok? then outcome.turn.entries else old(entries)
    {
      hide Cut;
      if busy {
        return Err(RunActive);
      }
      var all := AllEntries();
      var target := Named(all, request);
      if target.None? {
        return Err(UserMessageNotFound);
      }
      var prompt := Trim(request.text);
      if prompt == "" {
        return Err(PromptUnavailable);
      }
      var turn := Replace(target.value, prompt);
      outcome := Ok(turn);
    }

    /** Either the latest answer's run is erased and its prompt put back, or nothing changes. */
    method RegenerateLatestAssistant(known: bool, busy: bool, runId: string) returns (outcome: Outcome)
      requires Valid()
      modifies this`entries
      ensures Valid() && outcome == Regenerated(old(entries), known, busy, runId, markup)
      ensures entries == if outcome.Ok? then outcome.turn.entries else old(entries)
    {
      hide FirstFrom;
      hide FirstWhere;
      hide LastWhere;
      hide Prompting;
      hide Ordered;
      hide Trim;
      hide Cut;
      if !known {
        return Err(AssistantNotFound);
      }
      if busy {
        return Err(RunActive);
      }
      var all := AllEntries();
      var latest := LastWhere(all, FinalAnswer);
      if latest.None? || all[latest.value].content.runId != Some(runId) {
        return Err(NotLatestAssistant);
      }
      var first := FirstWhere(all, OfRun(runId));
      var user := PromptBefore(all, first.value);
      if user.None? {
        return Err(PromptUnavailable);
      }
      var text := all[user.value].content.text;
      if text.None? || Trim(text.value) == "" {
        return Err(PromptUnavailable);
      }
      var turn := Replace(user.value, Trim(text.value));
      outcome := Ok(turn);
    }

    /** Scans back from an entry to the user message that prompted it. */
    method PromptBefore(all: seq<Entry>, first: nat) returns (user: Option<nat>)
      requires first <= |all|
      ensures user == Prompting(all, first)
    {
      var index := first - 1;
      while index >= 0 && !IsUser(all[index])
        invariant -1 <= index < first
        invariant Prompting(all, first) == Prompting(all, index + 1)
      {
        index := index - 1;
      }
      user := if index < 0 then None else Some(index);
    }

    /** The entry a request claims, or why it may not. */
    method RequirePersistedUserMessage(id: string, claim: Claim) returns (claimed: Claimed)
      requires Valid()
      ensures claimed == Claimable(entries, session, id, claim)
    {
      if claim.session == "" {
        return Refused(NoSession);
      }
      if claim.attachments > 0 {
        return Refused(HasAttachments);
      }
      if |claim.messages| != 1 || claim.messages[0].Otherwise? {
        return Refused(NotOneText);
      }
      var found := FirstWhere(entries, WithId(id));
      if found.None? || claim.session != session || !IsUser(entries[found.value]) {
        return Refused(NotUserMessage);
      }
      var entry := entries[found.value];
      var newer := HasNewerActivity(entry);
      if newer {
        return Refused(NewerActivity);
      }
      if entry.content.text != Some(claim.messages[0].text) {
        return Refused(ContentDiffers);
      }
      claimed := Claims(entry);
    }
  }
}

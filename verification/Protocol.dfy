/**
 What a run may write to its log, as a protocol over the replay of what it has
 written so far, and what every log that keeps the protocol has in common:
 each prefix replays to a conversation that is ready to be continued.
 */
module Protocol {
  import opened Wrappers
  import opened Conversation
  import opened Transcript
  import opened Collector
  import opened Compaction
  import opened Replay

  // ------------------------------------------------------ continuation note

  /** Sent once to a run that picks up an interrupted one. */
  function ContinuationNote(): string {
    WhatHappened() + WhatToDo()
  }

  // Two halves of short literals, so that the verifier can read off their
  // characters one by one.
  function WhatHappened(): string {
    "This session was interrupted and " + "has been resumed. Work from the " + "step you were in the middle of "
  }

  function WhatToDo(): string {
    "was lost and may be partially " + "applied \U{E2}\U{80}\U{94} check the current " +
        "state, then continue the task."
  }

  predicate IsNote(b: ContentBlock) {
    b == Text(ContinuationNote())
  }

  function NoteCount(content: seq<ContentBlock>): nat {
    if content == [] then 0 else NoteCount(DropLast(content)) + (if IsNote(Last(content)) then 1 else 0)
  }

  /** No message holds the note twice. */
  predicate NoteOnce(ms: seq<Message>) {
    forall m | m in ms :: NoteCount(m.content) <= 1
  }

  predicate EndsWithNote(ms: seq<Message>) {
    EndsWithUser(ms) && exists b | b in Last(ms).content :: IsNote(b)
  }

  // --------------------------------------------------------------- protocol

  /** Whether a request built from this conversation is one a provider takes:
      it ends in a user message, or in a paused assistant message that the
      reply will join. */
  predicate Sendable(ms: seq<Message>, mergeNext: bool) {
    ms != [] && (EndsWithUser(ms) || mergeNext)
  }

  /** The turn being read is whole: its calls have distinct ids and each has
      its result. */
  ghost predicate Whole(accum: Accum) {
    && Uses(accum.blocks) == accum.calls && Answers(accum.blocks) == []
    && Distinct(accum.calls) && forall id | id in accum.calls :: id in accum.results
  }

  /** Whether `ev` may be written when the log replays to `st` and says `sp`. */
  ghost predicate Legal(reader: SeedReader, st: Replayed, sp: Spoken, ev: Event) {
    && st.Replayed?
    && match ev
       case Seed(_, _, _) =>
         st == START && Step(reader, st, ev).Replayed? && WellFormed(Step(reader, st, ev).messages)
       case UserMessage(content) =>
         st.accum == NOTHING && (content == ContinuationNote() ==> !EndsWithNote(st.messages))
       case Compaction(_, _, after) =>
         st.accum == NOTHING && Compacts(st.messages, after) && NoteCount(after[0].content) == 0
       case Injected(_, _, cadence, _) => cadence == Once ==> st.accum == NOTHING
       case TurnStart(_) => st.accum == NOTHING && Sendable(st.messages, st.mergeNext)
       case AssistantBlock(block, abandoned) => !block.Text?
       case TurnEnd(_, discarded) => discarded || (Sendable(st.messages, st.mergeNext) && Whole(st.accum))
       case RecoveryTaken(_, _, merge, _) => merge ==> st.accum == NOTHING
       case RunComplete(status, _, _) =>
         status == Ok ==> st.accum == NOTHING && EndsWithAssistant(st.messages) && SpeaksNow(sp)
       case _ => true
  }

  /** A log that kept the protocol at every event: it is seeded at most once,
      and nothing follows the completion. */
  ghost predicate LegalLog(reader: SeedReader, log: seq<Event>) {
    log == [] ||
    var before := DropLast(log);
    && LegalLog(reader, before)
    && (before != [] ==> !Last(before).RunComplete?)
    && (Last(log).Seed? ==> forall e | e in before :: !e.Seed?)
    && Legal(reader, Fold(reader, before), Heard(before), Last(log))
  }

  lemma FlushKeeps(ms: seq<Message>, accum: Accum, merge: bool)
    requires WellFormed(ms) && ms != [] && Whole(accum)
    ensures WellFormed(FlushInto(ms, accum, merge)) && FlushInto(ms, accum, merge) != []
  {
    DrainAnswers(accum.calls, accum.results);
    CommitTurnKeeps(ms, merge, accum.blocks, Drain(accum.calls, accum.results));
  }

  /** The events that change the conversation. Every other one leaves it as it
      was, so a turn that never ended is not in it at all. */
  predicate Commits(ev: Event) {
    match ev
    case Seed(_, _, _) | UserMessage(_) | Compaction(_, _, _) => true
    case Injected(_, _, cadence, _) => cadence == Once
    case TurnEnd(_, discarded) => !discarded
    case _ => false
  }

  lemma KeepsUncommitted(reader: SeedReader, st: Replayed, ev: Event)
    requires st.Replayed? && !Commits(ev)
    ensures Step(reader, st, ev).Replayed? && Step(reader, st, ev).messages == st.messages
  {
    hide WrapFor;
  }

  /** One event by the protocol keeps the conversation well formed, and a
      conversation never becomes empty again. */
  lemma StepKeepsWellFormed(reader: SeedReader, st: Replayed, sp: Spoken, ev: Event)
    requires Legal(reader, st, sp, ev) && WellFormed(st.messages)
    ensures Step(reader, st, ev).Replayed?
    ensures WellFormed(Step(reader, st, ev).messages)
    ensures st.messages != [] && !ev.Seed? ==> Step(reader, st, ev).messages != []
  {
    hide WrapFor, Compacts, FlushInto, PushUserTurn, WellFormed, Whole, SeedMessages, Taken;
    if !Commits(ev) {
      KeepsUncommitted(reader, st, ev);
    } else if ev.UserMessage? {
      PushUserTurnKeeps(st.messages, ev.content);
    } else if ev.Compaction? {
      CompactsKeeps(st.messages, ev.messages);
    } else if ev.TurnEnd? {
      FlushKeeps(st.messages, st.accum, st.mergeNext);
    } else if ev.Injected? {
      WrapIsPlain(ev.framing, ev.source, ev.content);
      PushPlainKeeps(st.messages, WrapFor(ev.framing, ev.source, ev.content));
    }
  }

  lemma WrapIsPlain(kind: InjectionKind, source: string, content: string)
    ensures var m := WrapFor(kind, source, content);
            && m.role.User? && |m.content| == 1 && m.content[0].Text?
            && Uses(m.content) == [] && Answers(m.content) == []
  {
    hide WrapText, OperatorText;
    var m := WrapFor(kind, source, content);
    assert DropLast(m.content) == [];
  }

  lemma {:induction false} LegalLogIsWellFormed(reader: SeedReader, log: seq<Event>)
    requires LegalLog(reader, log)
    ensures Fold(reader, log).Replayed? && WellFormed(Fold(reader, log).messages)
  {
    if log != [] {
      hide Step, Listen, Legal, WellFormed;
      LegalLogIsWellFormed(reader, DropLast(log));
      StepKeepsWellFormed(reader, Fold(reader, DropLast(log)), Heard(DropLast(log)), Last(log));
    }
  }

  lemma {:induction false} PrefixIsLegal(reader: SeedReader, log: seq<Event>, k: nat)
    requires LegalLog(reader, log) && k <= |log|
    ensures LegalLog(reader, log[..k])
    ensures k < |log| ==> Legal(reader, Fold(reader, log[..k]), Heard(log[..k]), log[k])
    ensures k < |log| && log[k].Seed? ==> forall e | e in log[..k] :: !e.Seed?
  {
    hide Step, Listen, Legal, Fold, Heard;
    if k == |log| {
      assert log[..k] == log;
    } else if k == |log| - 1 {
      assert log[..k] == DropLast(log);
    } else {
      PrefixIsLegal(reader, DropLast(log), k);
      assert DropLast(log)[..k] == log[..k] && DropLast(log)[k] == log[k];
    }
  }

  /** Crash safety: every prefix of a log that kept the protocol replays, and
      replays to a well-formed conversation. Its tool calls are all answered,
      so it never ends on a dangling one, wherever the process died. */
  lemma EveryPrefixIsWellFormed(reader: SeedReader, log: seq<Event>, k: nat)
    requires LegalLog(reader, log) && k <= |log|
    ensures Fold(reader, log[..k]).Replayed? && WellFormed(Fold(reader, log[..k]).messages)
    ensures Fold(reader, log[..k]).messages != [] ==> Uses(Last(Fold(reader, log[..k]).messages).content) == []
  {
    hide Step, Listen, Legal;
    PrefixIsLegal(reader, log, k);
    LegalLogIsWellFormed(reader, log[..k]);
    if Fold(reader, log[..k]).messages != [] {
      LastCallsNothing(Fold(reader, log[..k]).messages);
    }
  }

  /** A seed with no two replies in a row. */
  ghost predicate SeedApart(reader: SeedReader, ev: Event) {
    ev.Seed? ==>
      var seed := SeedMessages(reader, ev.sha, ev.sourcePath, ev.inline);
      seed.Success? ==> RepliesApart(seed.value)
  }

  /** One event keeps replies apart: a turn that continues a paused message
      joins it. */
  lemma StepKeepsApart(reader: SeedReader, st: Replayed, sp: Spoken, ev: Event)
    requires Legal(reader, st, sp, ev) && RepliesApart(st.messages) && SeedApart(reader, ev)
    ensures Step(reader, st, ev).Replayed? && RepliesApart(Step(reader, st, ev).messages)
  {
    hide WrapFor, Compacts, FlushInto, PushUserTurn, RepliesApart, Whole, SeedMessages, Taken;
    if !Commits(ev) {
      KeepsUncommitted(reader, st, ev);
    } else if ev.UserMessage? {
      UserKeepsApart(st.messages, UserText(""), ev.content);
    } else if ev.Compaction? {
      CompactsKeepsApart(st.messages, ev.messages);
    } else if ev.TurnEnd? {
      FlushKeepsApart(st.messages, st.accum, st.mergeNext);
    } else if ev.Injected? {
      WrapIsPlain(ev.framing, ev.source, ev.content);
      UserKeepsApart(st.messages, WrapFor(ev.framing, ev.source, ev.content), "");
    }
  }

  lemma FlushKeepsApart(ms: seq<Message>, accum: Accum, merge: bool)
    requires RepliesApart(ms) && Sendable(ms, merge)
    ensures RepliesApart(FlushInto(ms, accum, merge))
  {
    hide RepliesApart, AppendAssistant, AppendResults;
    var results := Drain(accum.calls, accum.results);
    AppendedTurnJoins(ms, merge, accum.blocks, results);
    TurnKeepsApart(ms, merge, accum.blocks, results, FlushInto(ms, accum, merge));
  }

  /** A log whose seed has no two replies in a row replays to a conversation
      that has none, wherever it is cut. */
  lemma {:induction false} LogKeepsApart(reader: SeedReader, log: seq<Event>, k: nat)
    requires LegalLog(reader, log) && k <= |log|
    requires forall e | e in log :: SeedApart(reader, e)
    ensures Fold(reader, log[..k]).Replayed? && RepliesApart(Fold(reader, log[..k]).messages)
  {
    hide Step, Legal, Listen, RepliesApart, SeedApart;
    if k == 0 {
      NoRepliesApart();
      assert log[..0] == [];
    } else {
      LogKeepsApart(reader, log, k - 1);
      PrefixIsLegal(reader, log, k - 1);
      assert DropLast(log[..k]) == log[..k - 1] && log[k - 1] in log;
      StepKeepsApart(reader, Fold(reader, log[..k - 1]), Heard(log[..k - 1]), log[k - 1]);
    }
  }

  lemma NoRepliesApart()
    ensures RepliesApart([])
  {
  }

  /** A cut anywhere replays to the conversation as of the last event that
      changed it: nothing of an unfinished turn is in it. */
  lemma {:induction false} CutIsLastCommit(reader: SeedReader, log: seq<Event>, j: nat, k: nat)
    requires LegalLog(reader, log) && j <= k <= |log|
    requires forall i | j <= i < k :: !Commits(log[i])
    ensures Fold(reader, log[..k]).Replayed? && Fold(reader, log[..j]).Replayed?
    ensures Fold(reader, log[..k]).messages == Fold(reader, log[..j]).messages
  {
    hide Step, Legal, Listen, WellFormed;
    EveryPrefixIsWellFormed(reader, log, k);
    if j < k {
      CutIsLastCommit(reader, log, j, k - 1);
      assert DropLast(log[..k]) == log[..k - 1];
      KeepsUncommitted(reader, Fold(reader, log[..k - 1]), log[k - 1]);
    }
  }

  // ------------------------------------------------------------ told once

  lemma {:induction false} NoteCountConcat(a: seq<ContentBlock>, b: seq<ContentBlock>)
    ensures NoteCount(a + b) == NoteCount(a) + NoteCount(b)
  {
    hide ContinuationNote;
    if b == [] {
      assert a + b == a;
    } else {
      assert DropLast(a + b) == a + DropLast(b);
      NoteCountConcat(a, DropLast(b));
    }
  }

  lemma {:induction false} NoNoteCount(content: seq<ContentBlock>)
    requires forall b | b in content :: !IsNote(b)
    ensures NoteCount(content) == 0
  {
    hide ContinuationNote;
    if content != [] {
      var front := DropLast(content);
      assert content == front + [Last(content)];
      assert forall b | b in front :: b in content;
      NoNoteCount(front);
    }
  }

  /** The note's own text: one line that opens with a capital T. */
  lemma NoteText()
    ensures ContinuationNote() != [] && ContinuationNote()[0] == 'T' && '\n' !in ContinuationNote()
  {
    assert WhatHappened() != [] && WhatHappened()[0] == 'T' && '\n' !in WhatHappened() by { WhatHappenedText(); }
    assert '\n' !in WhatToDo() by { WhatToDoText(); }
    hide WhatHappened, WhatToDo;
  }

  lemma WhatHappenedText()
    ensures WhatHappened() != [] && WhatHappened()[0] == 'T' && '\n' !in WhatHappened()
  {
  }

  lemma WhatToDoText()
    ensures '\n' !in WhatToDo()
  {
  }

  /** No injected text is the note. */
  lemma WrapIsNotNote(kind: InjectionKind, source: string, content: string)
    ensures NoteCount(WrapFor(kind, source, content).content) == 0
  {
    NoteText();
    hide ContinuationNote;
    WrapOpens(kind, source, content);
    NoNoteCount(WrapFor(kind, source, content).content);
  }

  lemma WrapOpens(kind: InjectionKind, source: string, content: string)
    ensures var m := WrapFor(kind, source, content);
            |m.content| == 1 && m.content[0].Text? && m.content[0].text != [] && m.content[0].text[0] != 'T'
  {
    if kind == Operator {
      OperatorTextOpens(content);
    } else {
      WrapTextOpens(source, content);
    }
    hide WrapText, OperatorText;
  }

  lemma OperatorTextOpens(content: string)
    ensures OperatorText(content) != [] && OperatorText(content)[0] == '*'
  {
  }

  lemma WrapTextOpens(source: string, content: string)
    ensures WrapText(source, content) != [] && WrapText(source, content)[0] == '['
  {
    hide Explanation, FenceLength;
  }

  /** The one assumption about the texts others send: no reply says the note. */
  predicate NotTheNote(ev: Event) {
    ev.AssistantMessage? ==> ev.content != ContinuationNote()
  }

  /** A seed that does not hold the note twice in a message. */
  ghost predicate SeedTellsOnce(reader: SeedReader, ev: Event) {
    ev.Seed? ==>
      var seed := SeedMessages(reader, ev.sha, ev.sourcePath, ev.inline);
      seed.Success? ==> NoteOnce(seed.value)
  }

  ghost predicate ToldOnce(st: Replayed) {
    st.Replayed? && NoteOnce(st.messages) && NoteCount(st.accum.blocks) == 0
  }

  lemma PushKeepsNoteOnce(ms: seq<Message>, text: string)
    requires NoteOnce(ms) && (text == ContinuationNote() ==> !EndsWithNote(ms))
    ensures NoteOnce(PushUserTurn(ms, text))
  {
    hide ContinuationNote;
    assert DropLast([Text(text)]) == [];
    assert NoteCount([Text(text)]) == (if IsNote(Text(text)) then 1 else 0);
    if EndsWithUser(ms) {
      NoteCountConcat(Last(ms).content, [Text(text)]);
      if text == ContinuationNote() {
        NoNoteCount(Last(ms).content);
      }
      assert Last(ms) in ms;
    }
  }

  lemma AppendKeepsNoteOnce(ms: seq<Message>, merge: bool, blocks: seq<ContentBlock>, results: seq<ContentBlock>)
    requires NoteOnce(ms) && NoteCount(blocks) == 0 && NoteCount(results) == 0
    ensures NoteOnce(AppendResults(AppendAssistant(ms, merge, blocks), results))
  {
    hide ContinuationNote;
    if merge && EndsWithAssistant(ms) {
      NoteCountConcat(Last(ms).content, blocks);
      assert Last(ms) in ms;
    }
  }

  lemma {:induction false} DrainHasNoNote(calls: seq<string>, results: map<string, (string, Option<string>)>)
    ensures NoteCount(Drain(calls, results)) == 0
  {
    hide ContinuationNote;
    if calls != [] {
      if calls[0] in results {
        var first := [ResultBlock(calls[0], results[calls[0]].0, results[calls[0]].1)];
        DrainHasNoNote(calls[1..], results - {calls[0]});
        assert DropLast(first) == [];
        NoteCountConcat(first, Drain(calls[1..], results - {calls[0]}));
      } else {
        DrainHasNoNote(calls[1..], results);
      }
    }
  }

  lemma TakenKeepsNoNote(accum: Accum, ev: Event)
    requires NoteCount(accum.blocks) == 0 && NotTheNote(ev)
    requires ev.AssistantBlock? ==> !ev.block.Text?
    ensures NoteCount(Taken(accum, ev).blocks) == 0
  {
    hide ContinuationNote;
    var after := Taken(accum, ev).blocks;
    if after != accum.blocks {
      assert DropLast(after) == accum.blocks;
    }
  }

  lemma CompactsKeepsNoteOnce(before: seq<Message>, after: seq<Message>)
    requires NoteOnce(before) && Compacts(before, after) && NoteCount(after[0].content) == 0
    ensures NoteOnce(after)
  {
    hide NoteCount;
    var k :| 2 <= k <= |before| - 2 && CompactsAt(before, after, k);
    assert after == [after[0]] + before[k..];
  }

  lemma FlushKeepsNoteOnce(ms: seq<Message>, accum: Accum, merge: bool)
    requires NoteOnce(ms) && NoteCount(accum.blocks) == 0
    ensures NoteOnce(FlushInto(ms, accum, merge))
  {
    hide NoteCount;
    DrainHasNoNote(accum.calls, accum.results);
    AppendKeepsNoteOnce(ms, merge, accum.blocks, Drain(accum.calls, accum.results));
  }

  lemma StepKeepsToldOnce(reader: SeedReader, st: Replayed, sp: Spoken, ev: Event)
    requires Legal(reader, st, sp, ev) && NotTheNote(ev) && ToldOnce(st)
    requires SeedTellsOnce(reader, ev)
    ensures ToldOnce(Step(reader, st, ev))
  {
    hide ContinuationNote, WrapFor, FlushInto, PushUserTurn, EndsWithNote, Compacts, SeedMessages;
    match ev {
      case Seed(_, _, _) =>
      case UserMessage(content) => PushKeepsNoteOnce(st.messages, content);
      case Compaction(_, _, after) => CompactsKeepsNoteOnce(st.messages, after);
      case TurnEnd(_, discarded) =>
        if !discarded {
          FlushKeepsNoteOnce(st.messages, st.accum, st.mergeNext);
        }
      case Injected(source, framing, cadence, content) => WrapIsNotNote(framing, source, content);
      case RecoveryTaken(_, _, _, _) =>
      case _ => TakenKeepsNoNote(st.accum, ev);
    }
  }

  /** Along a whole log no message comes to hold the note twice, when the seed
      does not bring one that does. */
  lemma {:induction false} LogTellsOnce(reader: SeedReader, log: seq<Event>)
    requires LegalLog(reader, log)
    requires forall e | e in log :: NotTheNote(e)
    requires forall e | e in log :: SeedTellsOnce(reader, e)
    ensures ToldOnce(Fold(reader, log))
  {
    if log != [] {
      hide Step, Listen, ToldOnce, NoteOnce, NotTheNote;
      var before := DropLast(log);
      assert forall e | e in before :: e in log;
      LogTellsOnce(reader, before);
      assert Last(log) in log;
      StepKeepsToldOnce(reader, Fold(reader, before), Heard(before), Last(log));
    }
  }
}

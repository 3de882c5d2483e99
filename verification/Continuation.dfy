/**
 Picking up a run from its log: what the log says to do next, and the run that
 is launched to do it.
 */
module Continuation {
  import opened Wrappers
  import opened Conversation
  import opened Outcomes
  import opened Recovery
  import opened Transcript
  import opened Collector
  import opened Compaction
  import opened Skills
  import opened Replay
  import opened Protocol
  import opened Writer
  import opened Chains
  import opened Runner

  datatype ContinuationError =
    | Unreadable(path: string)
    | NotAnAgentRun(path: string)
    | DanglingToolCall(path: string)
    | CannotReplay(path: string, source: ReplayError)

  datatype Continued =
    | Finished(output: string)
    | Resume(messages: seq<Message>, seedSource: string, stoppedOn: Option<OutcomeClass>,
        loadedSkills: seq<LoadedSkill>)
    | DidFail(error: Option<string>, seededFrom: Option<string>)

  /** The last completion record. */
  function LastCompletion(events: seq<Event>): (r: Option<Event>)
    ensures r.Some? ==> r.value.RunComplete? && r.value in events
  {
    if events == [] then None
    else if Last(events).RunComplete? then Some(Last(events))
    else LastCompletion(DropLast(events))
  }

  /** There is one exactly when the log has a completion record, and it is the
      one that none follows. */
  lemma {:induction false} LastCompletionMeaning(events: seq<Event>)
    ensures match LastCompletion(events)
            case None => forall e | e in events :: !e.RunComplete?
            case Some(c) => exists i | 0 <= i < |events| ::
              events[i] == c && c.RunComplete? && forall j | i < j < |events| :: !events[j].RunComplete?
  {
    if events != [] {
      var front := DropLast(events);
      assert events == front + [Last(events)];
      LastCompletionMeaning(front);
      if Last(events).RunComplete? {
        assert events[|events| - 1] == Last(events);
      } else if LastCompletion(front).Some? {
        var i :| 0 <= i < |front| && front[i] == LastCompletion(front).value &&
            forall j | i < j < |front| :: !front[j].RunComplete?;
        assert events[i] == front[i];
        forall j | i < j < |events| ensures !events[j].RunComplete? {
          assert j < |front| ==> events[j] == front[j];
        }
      }
    }
  }

  /** The source of the first seed that names one. */
  lemma {:induction false} SeededFromMeaning(events: seq<Event>)
    ensures match SeededFrom(events)
            case None => forall e | e in events && e.Seed? :: e.sourcePath.None?
            case Some(path) => exists i | 0 <= i < |events| ::
              events[i].Seed? && events[i].sourcePath == Some(path) &&
              forall j | 0 <= j < i && events[j].Seed? :: events[j].sourcePath.None?
  {
    if events != [] && !(events[0].Seed? && events[0].sourcePath.Some?) {
      var rest := events[1..];
      SeededFromMeaning(rest);
      assert events == [events[0]] + rest;
      if SeededFrom(rest).Some? {
        var i :| 0 <= i < |rest| && rest[i].Seed? && rest[i].sourcePath == SeededFrom(rest) &&
            forall j | 0 <= j < i && rest[j].Seed? :: rest[j].sourcePath.None?;
        assert events[i + 1] == rest[i];
        forall j | 0 <= j < i + 1 && events[j].Seed? ensures events[j].sourcePath.None? {
          assert j > 0 ==> events[j] == rest[j - 1];
        }
      }
    }
  }

  function SeededFrom(events: seq<Event>): Option<string> {
    if events == [] then None
    else if events[0].Seed? && events[0].sourcePath.Some? then events[0].sourcePath
    else SeededFrom(events[1..])
  }

  function AnswerText(events: seq<Event>): string {
    var answer := FinalTurnText(events);
    if answer.Some? then answer.value else ""
  }

  predicate EndsOnCall(ms: seq<Message>) {
    EndsWithAssistant(ms) && exists b | b in Last(ms).content :: b.ToolUse?
  }

  /** How to pick up the attempt recorded at `path`. With `recovery` a failed
      run that names an outcome is one to resume. */
  function Prepared(files: Files, hash: seq<Message> -> string, path: string,
                    recovery: bool): Result<Continued, ContinuationError> {
    if path !in files then Failure(Unreadable(path))
    else
      var events := files[path];
      var completion := LastCompletion(events);
      if !HasRunStart(events) then Failure(NotAnAgentRun(path))
      else if completion.Some? && completion.value.status == Ok then Success(Finished(AnswerText(events)))
      else if completion.Some? && completion.value.status == Failed && !(recovery && completion.value.outcome.Some?)
      then Success(DidFail(completion.value.error, SeededFrom(events)))
      else
        var stoppedOn :=
          if completion.Some? && completion.value.status == Failed then completion.value.outcome else None;
        match Reconstructed(files, hash, path)
        case Failure(e) => Failure(CannotReplay(path, e))
        case Success(ms) =>
          if ms == [] then Failure(NotAnAgentRun(path))
          else if EndsOnCall(ms) then Failure(DanglingToolCall(path))
          else if EndsWithAssistant(ms) && stoppedOn.None? then Success(Finished(AnswerText(events)))
          else Success(Resume(ms, path, stoppedOn, LoadedSkills(events)))
  }

  datatype PriorEnd = Interrupted | DidFinish | FailedOn(outcome: Option<OutcomeClass>)

  datatype PromptedContinuation = PromptedContinuation(
    messages: seq<Message>, seedSource: string, ended: PriorEnd, loadedSkills: seq<LoadedSkill>)

  /** The same for a continuation that the operator gives a prompt: every ended
      run can take one. */
  function PreparedPrompted(files: Files, hash: seq<Message> -> string,
                            path: string): Result<PromptedContinuation, ContinuationError> {
    if path !in files then Failure(Unreadable(path))
    else
      var events := files[path];
      if !HasRunStart(events) then Failure(NotAnAgentRun(path))
      else
        match Reconstructed(files, hash, path)
        case Failure(e) => Failure(CannotReplay(path, e))
        case Success(ms) =>
          if ms == [] then Failure(NotAnAgentRun(path))
          else if EndsOnCall(ms) then Failure(DanglingToolCall(path))
          else
            var ended := EndOf(LastCompletion(events));
            Success(PromptedContinuation(
              ms, path,
              if ended == Interrupted && EndsWithAssistant(ms) then DidFinish else ended,
              LoadedSkills(events)))
  }

  function EndOf(completion: Option<Event>): PriorEnd {
    if completion.None? || !completion.value.RunComplete? then Interrupted
    else
      match completion.value.status
      case Ok => DidFinish
      case Failed => FailedOn(completion.value.outcome)
      case Aborted => Interrupted
  }

  // ------------------------------------------------------------ the next turn

  /** Seed `turn` with a rebuilt conversation, and the continuation note unless
      the conversation ends with it. */
  function Apply(turn: UserTurn, messages: seq<Message>, source: string, loaded: seq<LoadedSkill>): UserTurn {
    ApplyWith(turn, messages, source, loaded, if EndsWithNote(messages) then "" else ContinuationNote())
  }

  function ApplyWith(turn: UserTurn, messages: seq<Message>, source: string, loaded: seq<LoadedSkill>,
                     note: string): UserTurn {
    turn.(message := note, continuePrompt := None, operatorLoads := [],
          initialMessages := messages, seedSource := Some(source), loadedSkills := loaded)
  }

  /** Seed `turn`, whose message is the operator's prompt: the prompt goes
      behind the note that fits how the run ended. `title` is the title of the
      outcome it failed on. */
  function ApplyPrompted(turn: UserTurn, p: PromptedContinuation, title: string, provider: string,
                         model: string): UserTurn {
    var note :=
      if p.ended == Interrupted then (if EndsWithNote(p.messages) then "" else ContinuationNote())
      else if p.ended.FailedOn? && p.ended.outcome.Some? then RecoveryRetryNote(title, provider, model)
      else "";
    turn.(message := note, continuePrompt := Some(turn.message),
          initialMessages := p.messages, seedSource := Some(p.seedSource), loadedSkills := p.loadedSkills)
  }

  // ------------------------------------------------------- reading a run's log

  lemma NoCallsNoEnd(ms: seq<Message>)
    requires WellFormed(ms)
    ensures !EndsOnCall(ms)
  {
    if EndsOnCall(ms) {
      LastCallsNothing(ms);
      var b :| b in Last(ms).content && b.ToolUse?;
      UsesOfMember(Last(ms).content, b);
    }
  }

  /** What a log that a run wrote reads back as. A process that died left a cut
      of what it would have written, and that is such a log too
      (`PrefixIsLegal`): so is every `log` below. */
  lemma ReadsBack(files: Files, hash: seq<Message> -> string, path: string, log: seq<Event>)
    requires path !in files && LegalLog(FilesReader(files, hash), log)
    ensures var read := Reconstructed(files[path := log], hash, path);
            && read == (if FitsBehind(files, log) then Conversed(Fold(FilesReader(files, hash), log))
                 else Failure(SeedChainTooDeep))
            && (read.Success? ==> WellFormed(read.value) && !EndsOnCall(read.value))
  {
    hide LegalLog, Legal, Step, Listen, Fold, WellFormed, EndsOnCall, FitsBehind, Reconstructed;
    NewLogReadsBack(files, hash, path, log);
    LegalLogIsWellFormed(FilesReader(files, hash), log);
    NoCallsNoEnd(Fold(FilesReader(files, hash), log).messages);
  }

  /** Wherever a run's process died, its log is never one that ends on a tool
      call with no result. */
  lemma NeverDangling(files: Files, hash: seq<Message> -> string, path: string, log: seq<Event>, recovery: bool)
    requires path !in files && LegalLog(FilesReader(files, hash), log)
    ensures Prepared(files[path := log], hash, path, recovery) != Failure(DanglingToolCall(path))
  {
    hide LegalLog, Legal, Step, Listen, Fold, WellFormed, EndsOnCall, FitsBehind, Reconstructed, LastCompletion;
    hide HasRunStart;
    ReadsBack(files, hash, path, log);
  }

  lemma NeverDanglingPrompted(files: Files, hash: seq<Message> -> string, path: string, log: seq<Event>)
    requires path !in files && LegalLog(FilesReader(files, hash), log)
    ensures PreparedPrompted(files[path := log], hash, path) != Failure(DanglingToolCall(path))
  {
    hide LegalLog, Legal, Step, Listen, Fold, WellFormed, EndsOnCall, FitsBehind, Reconstructed, LastCompletion;
    hide HasRunStart;
    ReadsBack(files, hash, path, log);
  }

  /** A continuation resumes from what the log replays to, with the skills that
      the log records. */
  lemma ResumesTheReplay(files: Files, hash: seq<Message> -> string, path: string, log: seq<Event>, recovery: bool)
    requires path !in files && LegalLog(FilesReader(files, hash), log)
    ensures var r := Prepared(files[path := log], hash, path, recovery);
            r.Success? && r.value.Resume? ==>
              && Conversed(Fold(FilesReader(files, hash), log)) == Success(r.value.messages)
              && r.value.loadedSkills == LoadedSkills(log)
  {
    hide LegalLog, Legal, Step, Listen, Fold, WellFormed, EndsOnCall, FitsBehind, Reconstructed, LastCompletion;
    hide HasRunStart;
    ReadsBack(files, hash, path, log);
  }

  /** A run whose process died after its `k`-th event is resumed from exactly
      what it held then. */
  lemma ResumesWhatTheRunHeld(run: AgentRun, files: Files, hash: seq<Message> -> string, path: string, k: nat,
                              recovery: bool)
    requires run.InStep() && run.writer.reader == FilesReader(files, hash)
    requires path !in files && 0 < k <= |run.writer.events| == |run.held|
    ensures var r := Prepared(files[path := run.writer.events[..k]], hash, path, recovery);
            r.Success? && r.value.Resume? ==> r.value.messages == run.held[k - 1]
  {
    hide LegalLog, Fold, Heard, LoadedSkills, WellFormed, GoodRequest, Prepared, Conversed;
    PrefixIsLegal(FilesReader(files, hash), run.writer.events, k);
    ResumesTheReplay(files, hash, path, run.writer.events[..k], recovery);
    HeldAt(run.writer.reader, run.writer.events, run.held, k);
  }

  lemma HeldAt(reader: SeedReader, log: seq<Event>, held: seq<seq<Message>>, k: nat)
    requires HeldInStep(reader, log, held) && 0 < k <= |log|
    ensures Conversed(Fold(reader, log[..k])) == Success(held[k - 1])
  {
    hide Fold, Conversed;
    assert Conversed(Fold(reader, log[..k - 1 + 1])) == Success(held[k - 1]);
  }

  /** A run that ended, and whose record says to resume it, is resumed from its
      own messages, with its own loaded skills when the log could hold them. */
  lemma ResumesAnEndedRun(run: AgentRun, files: Files, hash: seq<Message> -> string, path: string, recovery: bool)
    requires run.Closed() && run.writer.reader == FilesReader(files, hash) && path !in files
    ensures var r := Prepared(files[path := run.writer.events], hash, path, recovery);
            r.Success? && r.value.Resume? ==>
              r.value.messages == run.messages && (run.exact ==> r.value.loadedSkills == run.loaded)
  {
    hide LegalLog, Fold, Heard, LoadedSkills, WellFormed, GoodRequest, Prepared, HeldInStep;
    ResumesTheReplay(files, hash, path, run.writer.events, recovery);
    run.ClosedFacts();
  }

  // ------------------------------------------------------- how a run had ended

  /** What a run with this log held after its last event. */
  function HeldAfter(files: Files, hash: seq<Message> -> string, log: seq<Event>): seq<Message> {
    match Fold(FilesReader(files, hash), log)
    case Replayed(messages, _, _) => messages
    case Broken(_) => []
  }

  lemma EndsIn(files: Files, hash: seq<Message> -> string, log: seq<Event>)
    requires LegalLog(FilesReader(files, hash), log) && log != [] && Last(log).RunComplete?
    ensures LastCompletion(log) == Some(Last(log))
    ensures Conversed(Fold(FilesReader(files, hash), log)) == Success(HeldAfter(files, hash, log))
  {
    hide LegalLog, Fold;
    LegalLogIsWellFormed(FilesReader(files, hash), log);
  }

  /** A failed run is resumed, as stopped on its outcome, exactly when it is to be
      recovered and recorded one, whatever its conversation ends in; and
      otherwise it is reported as failed, with its recorded error. */
  lemma FailedIsResumedOrReported(files: Files, hash: seq<Message> -> string, path: string, log: seq<Event>,
                                  recovery: bool)
    requires path !in files && LegalLog(FilesReader(files, hash), log) && HasRunStart(log)
    requires log != [] && Last(log).RunComplete? && Last(log).status == Failed
    ensures Prepared(files[path := log], hash, path, recovery) ==
            if !(recovery && Last(log).outcome.Some?) then Success(DidFail(Last(log).error, SeededFrom(log)))
            else if !FitsBehind(files, log) then Failure(CannotReplay(path, SeedChainTooDeep))
            else if HeldAfter(files, hash, log) == [] then Failure(NotAnAgentRun(path))
            else Success(Resume(HeldAfter(files, hash, log), path, Last(log).outcome, LoadedSkills(log)))
  {
    hide LegalLog, Legal, Step, Listen, Fold, WellFormed, EndsOnCall, FitsBehind, Reconstructed, LastCompletion;
    hide HasRunStart, HeldAfter;
    EndsIn(files, hash, log);
    ReadsBack(files, hash, path, log);
  }

  /** An aborted run is never reported as failed: it is resumed, or finished when
      its conversation ends in the answer. */
  lemma AbortedIsPickedUp(files: Files, hash: seq<Message> -> string, path: string, log: seq<Event>, recovery: bool)
    requires path !in files && LegalLog(FilesReader(files, hash), log) && HasRunStart(log)
    requires log != [] && Last(log).RunComplete? && Last(log).status == Aborted
    ensures Prepared(files[path := log], hash, path, recovery) ==
            if !FitsBehind(files, log) then Failure(CannotReplay(path, SeedChainTooDeep))
            else if HeldAfter(files, hash, log) == [] then Failure(NotAnAgentRun(path))
            else if EndsWithAssistant(HeldAfter(files, hash, log)) then Success(Finished(AnswerText(log)))
            else Success(Resume(HeldAfter(files, hash, log), path, None, LoadedSkills(log)))
  {
    hide LegalLog, Legal, Step, Listen, Fold, WellFormed, EndsOnCall, FitsBehind, Reconstructed, LastCompletion;
    hide HasRunStart, HeldAfter;
    EndsIn(files, hash, log);
    ReadsBack(files, hash, path, log);
  }

  /** With a prompt every ended run is picked up, as what it was: finished, failed
      on its recorded outcome, or interrupted unless its conversation ends in the
      answer. */
  lemma PromptedEnds(files: Files, hash: seq<Message> -> string, path: string, log: seq<Event>)
    requires path !in files && LegalLog(FilesReader(files, hash), log) && HasRunStart(log)
    requires log != [] && Last(log).RunComplete?
    ensures PreparedPrompted(files[path := log], hash, path) ==
            if !FitsBehind(files, log) then Failure(CannotReplay(path, SeedChainTooDeep))
            else if HeldAfter(files, hash, log) == [] then Failure(NotAnAgentRun(path))
            else Success(PromptedContinuation(HeldAfter(files, hash, log), path,
                if Last(log).status == Ok then DidFinish
                else if Last(log).status == Failed then FailedOn(Last(log).outcome)
                else if EndsWithAssistant(HeldAfter(files, hash, log)) then DidFinish else Interrupted,
                LoadedSkills(log)))
  {
    hide LegalLog, Legal, Step, Listen, Fold, WellFormed, EndsOnCall, FitsBehind, Reconstructed, LastCompletion;
    hide HasRunStart, HeldAfter;
    EndsIn(files, hash, log);
    ReadsBack(files, hash, path, log);
  }

  /** What a prompted continuation says ahead of the prompt: the retry note to a
      run that failed on an outcome, the continuation note to an interrupted one
      that does not end with it, nothing to any other. The prompt always follows. */
  lemma PromptedSays(turn: UserTurn, p: PromptedContinuation, title: string, provider: string, model: string)
    ensures var after := ApplyPrompted(turn, p, title, provider, model);
            var retry := RecoveryRetryNote(title, provider, model);
            && after.message in {"", retry, ContinuationNote()}
            && (after.message == retry <==> p.ended.FailedOn? && p.ended.outcome.Some?)
            && (after.message == ContinuationNote() <==> p.ended == Interrupted && !EndsWithNote(p.messages))
            && after.continuePrompt == Some(turn.message) && after.initialMessages == p.messages
            && after.seedSource == Some(p.seedSource) && after.loadedSkills == p.loadedSkills
  {
    OwnNotes(title, provider, model);
    NotesAreSomething(title, provider, model);
    hide ContinuationNote, RecoveryRetryNote, EndsWithNote;
  }

  lemma NotesAreSomething(title: string, provider: string, model: string)
    ensures ContinuationNote() != "" && RecoveryRetryNote(title, provider, model) != ""
  {
    NoteText();
    hide ContinuationNote;
    assert RecoveryRetryNote(title, provider, model)[0] == 'A';
  }

  /** A conversation that a run was launched with is never emptied. */
  lemma {:induction false} NeverEmptied(reader: SeedReader, log: seq<Event>, launch: nat)
    requires LegalLog(reader, log) && launch <= |log|
    requires Fold(reader, log[..launch]).Replayed? && Fold(reader, log[..launch]).messages != []
    requires forall i | launch <= i < |log| :: !log[i].Seed?
    ensures Fold(reader, log).Replayed? && Fold(reader, log).messages != []
  {
    hide Legal, Step, Listen, Heard, WellFormed;
    if launch == |log| {
      assert log[..launch] == log;
    } else {
      var before := DropLast(log);
      assert before[..launch] == log[..launch];
      NeverEmptied(reader, before, launch);
      LegalLogIsWellFormed(reader, before);
      StepKeepsWellFormed(reader, Fold(reader, before), Heard(before), Last(log));
    }
  }

  /** A seed only ever comes first, so none follows a launch that has a
      conversation. */
  lemma NoLaterSeed(reader: SeedReader, log: seq<Event>, launch: nat, i: nat)
    requires LegalLog(reader, log) && launch <= i < |log|
    requires Fold(reader, log[..launch]).Replayed? && Fold(reader, log[..launch]).messages != []
    requires forall j | launch <= j < i :: !log[j].Seed?
    ensures !log[i].Seed?
  {
    hide Fold, Heard, LegalLog, Legal;
    PrefixIsLegal(reader, log, i);
    assert log[..i][..launch] == log[..launch];
    NeverEmptied(reader, log[..i], launch);
    if log[i].Seed? {
      SeedComesFirst(reader, Fold(reader, log[..i]), Heard(log[..i]), log[i]);
    }
  }

  lemma SeedComesFirst(reader: SeedReader, st: Replayed, sp: Spoken, ev: Event)
    requires Legal(reader, st, sp, ev) && ev.Seed?
    ensures st == START
  {
    hide Step, WellFormed, Sendable, Whole, Compacts, SpeaksNow, EndsWithNote, ContinuationNote, NoteCount;
  }

  lemma {:induction false} NoSeedAfter(reader: SeedReader, log: seq<Event>, launch: nat, k: nat)
    requires LegalLog(reader, log) && launch <= k <= |log|
    requires Fold(reader, log[..launch]).Replayed? && Fold(reader, log[..launch]).messages != []
    ensures forall i | launch <= i < k :: !log[i].Seed?
  {
    hide LegalLog, Fold;
    if launch < k {
      NoSeedAfter(reader, log, launch, k - 1);
      NoLaterSeed(reader, log, launch, k - 1);
    }
  }

  /** A run that closed as failed on `kind` is resumed, for recovery, from its own
      messages as stopped on `kind`, even when they end in an assistant message;
      and otherwise it is reported as failed. */
  lemma FailedRunIsResumed(run: AgentRun, turn: UserTurn, files: Files, hash: seq<Message> -> string, path: string,
                           error: Option<string>, kind: OutcomeClass)
    requires [RunStart] <= run.launchLog <= run.writer.events
    requires run.Closed() && run.writer.reader == FilesReader(files, hash) && path !in files
    requires run.writer.events != [] && Last(run.writer.events) == RunComplete(Failed, error, Some(kind))
    requires Launchable(run.writer.reader, turn) && FitsBehind(files, run.writer.events)
    requires Conversed(Fold(run.writer.reader, run.launchLog)) == Success(FirstConversation(turn))
    ensures var loaded := LoadedSkills(run.writer.events);
            Prepared(files[path := run.writer.events], hash, path, true) ==
            Success(Resume(run.messages, path, Some(kind), loaded)) && (run.exact ==> loaded == run.loaded)
    ensures Prepared(files[path := run.writer.events], hash, path, false) ==
            Success(DidFail(error, SeededFrom(run.writer.events)))
  {
    hide LegalLog, Fold, Heard, LoadedSkills, WellFormed, GoodRequest, RepliesApart, Prepared, FitsBehind, Launchable;
    hide FirstConversation, HeldInStep, HasRunStart, EndsWithUser;
    var reader, events := run.writer.reader, run.writer.events;
    run.ClosedFacts();
    StartsWithRunStart(run.launchLog, events);
    LaunchEndsWithUser(reader, turn);
    EndIsNotEmpty(FirstConversation(turn));
    assert events[..|run.launchLog|] == run.launchLog;
    NoSeedAfter(reader, events, |run.launchLog|, |events|);
    NeverEmptied(reader, events, |run.launchLog|);
    EndsIn(files, hash, events);
    FailedIsResumedOrReported(files, hash, path, events, true);
    FailedIsResumedOrReported(files, hash, path, events, false);
  }

  lemma EndIsNotEmpty(ms: seq<Message>)
    requires EndsWithUser(ms)
    ensures ms != []
  {
  }

  // ------------------------------------------------- a lost completion record

  lemma {:induction false} NothingFollowsCompletion(reader: SeedReader, log: seq<Event>, e: Event)
    requires LegalLog(reader, log) && log != [] && e in DropLast(log)
    ensures !e.RunComplete?
  {
    hide Legal, Fold, Heard;
    var before := DropLast(log);
    if e != Last(before) {
      assert before == DropLast(before) + [Last(before)];
      NothingFollowsCompletion(reader, before, e);
    }
  }

  lemma {:induction false} NoCompletion(events: seq<Event>)
    requires forall e | e in events :: !e.RunComplete?
    ensures LastCompletion(events).None?
  {
    if events != [] {
      assert Last(events) in events && forall e | e in DropLast(events) :: e in events;
      NoCompletion(DropLast(events));
    }
  }

  lemma CutIsInterrupted(reader: SeedReader, log: seq<Event>, k: nat)
    requires LegalLog(reader, log) && k < |log|
    ensures LastCompletion(log[..k]).None?
  {
    hide LegalLog;
    forall e | e in log[..k] ensures !e.RunComplete? {
      assert e in DropLast(log);
      NothingFollowsCompletion(reader, log, e);
    }
    NoCompletion(log[..k]);
  }

  lemma CompletionSaysNothing(events: seq<Event>)
    requires events != [] && Last(events).RunComplete?
    ensures Heard(DropLast(events)) == Heard(events)
  {
  }

  lemma GoodEnd(reader: SeedReader, log: seq<Event>)
    requires LegalLog(reader, log) && log != [] && Last(log).RunComplete? && Last(log).status == Ok
    ensures var before := Fold(reader, DropLast(log));
            before.Replayed? && EndsWithAssistant(before.messages) && SpeaksNow(Heard(DropLast(log)))
    ensures forall e | e in DropLast(log) :: !e.RunComplete?
  {
    hide Fold, Heard, SpeaksNow, Step, WellFormed, Compacts, Whole, SeedMessages;
    assert Legal(reader, Fold(reader, DropLast(log)), Heard(DropLast(log)), Last(log));
    forall e | e in DropLast(log) ensures !e.RunComplete? {
      NothingFollowsCompletion(reader, log, e);
    }
  }

  /** A run that ended well reads as finished, with an answer that is not blank:
      the texts of its last logical turn, joined. */
  lemma GoodEndIsFinished(files: Files, hash: seq<Message> -> string, path: string, log: seq<Event>, recovery: bool)
    requires LegalLog(FilesReader(files, hash), log) && HasRunStart(log)
    requires log != [] && Last(log).RunComplete? && Last(log).status == Ok
    ensures Prepared(files[path := log], hash, path, recovery) == Success(Finished(AnswerText(log))) &&
            !Blank(AnswerText(log))
    ensures LogicalTurnOf(log).texts != [] &&
            AnswerText(log) == Join(LogicalTurnOf(log).texts, FRAGMENT_SEPARATOR)
  {
    hide LogicalTurnOf, Join;
    hide Legal, Fold, Heard, Step, Listen, Reconstructed, EndsOnCall, WellFormed, SpeaksNow, LegalLog, Blank, AnswerOf;
    CompletionSaysNothing(log);
    GoodEnd(FilesReader(files, hash), log);
    SpokenAnswer(Heard(DropLast(log)));
    AnswerIsLogicalTurn(log);
  }

  /** Losing the completion record of a run that ended well makes no difference,
      exactly when the chain that it continues can still be read. */
  lemma LostCompletion(files: Files, hash: seq<Message> -> string, path: string, log: seq<Event>, recovery: bool)
    requires path !in files && LegalLog(FilesReader(files, hash), log) && HasRunStart(log)
    requires log != [] && Last(log).RunComplete? && Last(log).status == Ok
    ensures Prepared(files[path := DropLast(log)], hash, path, recovery) ==
            Prepared(files[path := log], hash, path, recovery) <==>
            FitsBehind(files, DropLast(log))
  {
    hide Legal, Fold, Heard, Step, Listen, Reconstructed, FitsBehind, EndsOnCall, WellFormed, SpeaksNow, LegalLog;
    hide AnswerOf;
    var reader, before := FilesReader(files, hash), DropLast(log);
    assert before == log[..|log| - 1];
    PrefixIsLegal(reader, log, |log| - 1);
    ReadsBack(files, hash, path, before);
    CompletionSaysNothing(log);
    GoodEnd(reader, log);
    NoCompletion(before);
    assert HasRunStart(before) by {
      var e :| e in log && e.RunStart?;
      assert log == before + [Last(log)];
    }
  }

  /** A turn that answers, and the end of its run. */
  const ANSWERED: seq<Event> := [TurnStart(0), AssistantMessage("done"), TurnEnd(0, false)]

  lemma SaidIsLegal(reader: SeedReader, log: seq<Event>, ms: seq<Message>)
    requires LegalLog(reader, log) && Fold(reader, log) == Replayed(ms, NOTHING, false) && EndsWithUser(ms)
    requires log != [] && !Last(log).RunComplete?
    ensures var said := log + [TurnStart(0)] + [AssistantMessage("done")];
            && LegalLog(reader, said) && SpeaksNow(Heard(said))
            && Fold(reader, said) == Replayed(ms, Taken(NOTHING, AssistantMessage("done")), false)
  {
    hide Legal, Step, Listen, Fold, Heard, LegalLog, SpeaksNow, FlushInto, Taken, Takes;
    var turn, text, st := TurnStart(0), AssistantMessage("done"), Replayed(ms, NOTHING, false);
    TakesTurnStart(reader, st, Heard(log), 0);
    OneMoreEvent(reader, log, turn);
    assert !Blank("done");
    TakesPiece(reader, st, Heard(log + [turn]), text);
    OneMoreEvent(reader, log + [turn], text);
  }

  lemma AnsweredIsLegal(reader: SeedReader, log: seq<Event>, ms: seq<Message>)
    requires LegalLog(reader, log) && Fold(reader, log) == Replayed(ms, NOTHING, false) && EndsWithUser(ms)
    requires log != [] && !Last(log).RunComplete?
    ensures LegalLog(reader, log + ANSWERED)
    ensures LegalLog(reader, log + ANSWERED + [RunComplete(Ok, None, None)])
  {
    hide Legal, Step, Listen, Fold, Heard, LegalLog, SpeaksNow, FlushInto, Taken, Takes;
    var said, end := log + [TurnStart(0)] + [AssistantMessage("done")], TurnEnd(0, false);
    SaidIsLegal(reader, log, ms);
    EndsAnswered(reader, Fold(reader, said), Heard(said), ms);
    OneMoreEvent(reader, said, end);
    assert said + [end] == log + ANSWERED;
    OneMoreEvent(reader, said + [end], RunComplete(Ok, None, None));
  }

  lemma EndsAnswered(reader: SeedReader, st: Replayed, sp: Spoken, ms: seq<Message>)
    requires EndsWithUser(ms) && st == Replayed(ms, Taken(NOTHING, AssistantMessage("done")), false) && SpeaksNow(sp)
    ensures var end := TurnEnd(0, false);
            var next := Step(reader, st, end);
            && Legal(reader, st, sp, end) && next.Replayed? && Listen(sp, end) == sp
            && Legal(reader, next, sp, RunComplete(Ok, None, None))
  {
    hide SpeaksNow, Legal, Step, Listen;
    assert st.accum == Accum([Text("done")], [], map[]) && DropLast([Text("done")]) == [];
    assert Whole(st.accum);
    TakesTurnEnd(reader, st, sp, 0);
    TakesCompletion(reader, Step(reader, st, TurnEnd(0, false)), sp, RunComplete(Ok, None, None));
  }

  /** One that it does make a difference for: behind as many attempts as the
      depth cap allows and one more, each of them read when it was referred to,
      the completed run is finished, and without its completion record it cannot
      be read. */
  lemma LostDeepCompletion(hash: seq<Message> -> string, ms: seq<Message>, recovery: bool)
    requires WellFormed(ms) && EndsWithUser(ms)
    ensures var n := MAX_SEED_CHAIN_DEPTH + 1;
            var files, path, log := Attempts(hash, ms, n), PathOf(n), AttemptLog(hash, ms, n) + ANSWERED;
            var whole := log + [RunComplete(Ok, None, None)];
            && LegalLog(FilesReader(files, hash), whole)
            && Prepared(files[path := whole], hash, path, recovery) == Success(Finished(AnswerText(whole)))
            && Prepared(files[path := log], hash, path, recovery) == Failure(CannotReplay(path, SeedChainTooDeep))
  {
    hide Attempts, PathOf, LegalLog, Fold, WellFormed, EndsBefore, Reconstructed, LastCompletion, EndsOnCall;
    var n := MAX_SEED_CHAIN_DEPTH + 1;
    var files, path, attempt := Attempts(hash, ms, n), PathOf(n), AttemptLog(hash, ms, n);
    var reader, log := FilesReader(files, hash), attempt + ANSWERED;
    var whole := log + [RunComplete(Ok, None, None)];
    TooManyContinuations(hash, ms, n);
    AttemptFits(hash, ms, n);
    AttemptRefers(hash, ms, n);
    ReferenceStays(attempt, ANSWERED);
    assert attempt[0] == RunStart && forall e | e in log :: !e.RunComplete?;
    hide AttemptLog;
    AnsweredIsLegal(reader, attempt, ms);
    assert DropLast(whole) == log && attempt[0] in whole && attempt[0] in log;
    GoodEndIsFinished(files, hash, path, whole, recovery);
    NoCompletion(log);
    ReadsBack(files, hash, path, log);
  }

  // ----------------------------------------------- launching the continuation

  /** A continuation of what a run's log reads back as can be launched beside
      that log. */
  lemma ContinuationIsLaunchable(files: Files, hash: seq<Message> -> string, path: string, log: seq<Event>,
                                 recovery: bool, turn: UserTurn)
    requires path !in files && LegalLog(FilesReader(files, hash), log)
    ensures var files' := files[path := log];
            var r := Prepared(files', hash, path, recovery);
            r.Success? && r.value.Resume? ==>
              Launchable(FilesReader(files', hash),
                  Apply(turn, r.value.messages, r.value.seedSource, r.value.loadedSkills))
  {
    hide LegalLog, Legal, Step, Listen, Fold, WellFormed, EndsOnCall, FitsBehind, Reconstructed, LastCompletion;
    hide HasRunStart, Heard, SpeaksNow;
    hide ContinuationNote, RecoveryRetryNote;
    ReadsBack(files, hash, path, log);
    NoteText();
  }

  /** A failed run resumed on another model is sent the caller's retry note
      instead, and can be launched as well. */
  lemma RetryIsLaunchable(files: Files, hash: seq<Message> -> string, path: string, log: seq<Event>,
                          turn: UserTurn, title: string, provider: string, model: string)
    requires path !in files && LegalLog(FilesReader(files, hash), log)
    ensures var files' := files[path := log];
            var r := Prepared(files', hash, path, true);
            var note := RecoveryRetryNote(title, provider, model);
            r.Success? && r.value.Resume? ==>
              var t := ApplyWith(turn, r.value.messages, r.value.seedSource, r.value.loadedSkills, note);
              Launchable(FilesReader(files', hash), t) && FirstConversation(t) == PushUserTurn(r.value.messages, note)
  {
    hide LegalLog, Legal, Step, Listen, Fold, WellFormed, EndsOnCall, FitsBehind, Reconstructed, LastCompletion;
    hide HasRunStart;
    hide Heard, SpeaksNow, ContinuationNote, RecoveryRetryNote, PushUserTurn;
    ReadsBack(files, hash, path, log);
    OwnNotes(title, provider, model);
    RetryNoteIsText(title, provider, model);
    AppliedFirstConversation(turn, RecoveryRetryNote(title, provider, model));
  }

  lemma AppliedFirstConversation(turn: UserTurn, note: string)
    requires note != ""
    ensures forall ms, source, loaded ::
              UserMessages(ApplyWith(turn, ms, source, loaded, note)) == [note] &&
              FirstConversation(ApplyWith(turn, ms, source, loaded, note)) == PushUserTurn(ms, note)
  {
    hide PushUserTurn;
    assert DropLast([note]) == [];
    forall ms, source, loaded
      ensures UserMessages(ApplyWith(turn, ms, source, loaded, note)) == [note] &&
              FirstConversation(ApplyWith(turn, ms, source, loaded, note)) == PushUserTurn(ms, note) {
      assert PushAll(ms, []) == ms && PushAll(ms, [note]) == PushUserTurn(PushAll(ms, DropLast([note])), note);
    }
  }

  lemma RetryNoteIsText(title: string, provider: string, model: string)
    ensures RecoveryRetryNote(title, provider, model) != ""
  {
    assert RecoveryRetryNote(title, provider, model)[0] == 'A';
  }

  /** So is one with a prompt, when the prompt is not empty and not the note. */
  lemma PromptedIsLaunchable(files: Files, hash: seq<Message> -> string, path: string, log: seq<Event>,
                             turn: UserTurn, title: string, provider: string, model: string)
    requires path !in files && LegalLog(FilesReader(files, hash), log)
    requires turn.message != "" && turn.message != ContinuationNote()
    ensures var files' := files[path := log];
            var p := PreparedPrompted(files', hash, path);
            p.Success? ==> Launchable(FilesReader(files', hash), ApplyPrompted(turn, p.value, title, provider, model))
  {
    hide LegalLog, Legal, Step, Listen, Fold, WellFormed, EndsOnCall, FitsBehind, Reconstructed, LastCompletion;
    hide HasRunStart, Heard, SpeaksNow;
    hide ContinuationNote, RecoveryRetryNote;
    ReadsBack(files, hash, path, log);
    OwnNotes(title, provider, model);
    NoteText();
  }

  // -------------------------------------------------- continuing over and over

  /** What a continuation first sends: the rebuilt conversation, with the note
      added when it does not end with it already. */
  lemma FirstSent(turn: UserTurn, messages: seq<Message>, source: string, loaded: seq<LoadedSkill>)
    ensures FirstConversation(Apply(turn, messages, source, loaded)) ==
            if EndsWithNote(messages) then messages else PushUserTurn(messages, ContinuationNote())
    ensures EndsWithNote(FirstConversation(Apply(turn, messages, source, loaded)))
  {
    NoteText();
    hide ContinuationNote;
    var t := Apply(turn, messages, source, loaded);
    if EndsWithNote(messages) {
      assert UserMessages(t) == [] && PushAll(messages, []) == messages;
    } else {
      assert UserMessages(t) == [ContinuationNote()] && DropLast([ContinuationNote()]) == [];
      assert PushAll(messages, []) == messages;
      assert PushAll(messages, [ContinuationNote()]) == PushUserTurn(messages, ContinuationNote());
      PushingTells(messages, [ContinuationNote()]);
    }
  }

  /** What a continuation first sent is what its own continuation first sends:
      the note is not told again. */
  lemma NoteIsToldOnce(turn: UserTurn, messages: seq<Message>, source: string, loaded: seq<LoadedSkill>,
                       next: UserTurn, path: string, again: seq<LoadedSkill>)
    ensures var sent := FirstConversation(Apply(turn, messages, source, loaded));
            FirstConversation(Apply(next, sent, path, again)) == sent
  {
    hide ContinuationNote, FirstConversation, Apply, PushUserTurn;
    FirstSent(turn, messages, source, loaded);
    FirstSent(next, FirstConversation(Apply(turn, messages, source, loaded)), path, again);
  }

  /** Whether a launch sends the continuation note: its seed ends with it, or one
      of its user messages is it. */
  predicate Told(turn: UserTurn) {
    EndsWithNote(turn.initialMessages) || ContinuationNote() in UserMessages(turn)
  }

  lemma PushTells(ms: seq<Message>, text: string)
    ensures EndsWithNote(PushUserTurn(ms, text)) <==> EndsWithNote(ms) || text == ContinuationNote()
    ensures PushUserTurn(ms, text) != ms
  {
    hide ContinuationNote;
    var after := PushUserTurn(ms, text);
    var before := if EndsWithUser(ms) then Last(ms).content else [];
    assert EndsWithUser(after) && Last(after).content == before + [Text(text)];
    assert forall b :: b in Last(after).content <==> b in before || b == Text(text);
    assert IsNote(Text(text)) <==> text == ContinuationNote();
    assert EndsWithUser(ms) ==> |Last(after).content| != |Last(ms).content|;
    assert !EndsWithUser(ms) ==> |after| != |ms|;
  }

  lemma {:induction false} PushingTells(ms: seq<Message>, texts: seq<string>)
    ensures EndsWithNote(PushAll(ms, texts)) <==> EndsWithNote(ms) || ContinuationNote() in texts
  {
    hide ContinuationNote, EndsWithNote, PushUserTurn;
    if texts != [] {
      PushingTells(ms, DropLast(texts));
      PushTells(PushAll(ms, DropLast(texts)), Last(texts));
      assert texts == DropLast(texts) + [Last(texts)];
    }
  }

  /** Every continuation sends the note. */
  lemma AppliedIsTold(turn: UserTurn, messages: seq<Message>, source: string, loaded: seq<LoadedSkill>)
    ensures Told(Apply(turn, messages, source, loaded))
  {
    NoteText();
    hide ContinuationNote, EndsWithNote;
    assert EndsWithNote(messages) || UserMessages(Apply(turn, messages, source, loaded)) == [ContinuationNote()];
  }

  /** One with a prompt does exactly when it continues an interrupted run, or
      when its seed ends with the note already, or the prompt is the note. */
  lemma PromptedIsTold(turn: UserTurn, p: PromptedContinuation, title: string, provider: string, model: string)
    ensures Told(ApplyPrompted(turn, p, title, provider, model)) <==>
            p.ended == Interrupted || EndsWithNote(p.messages) || turn.message == ContinuationNote()
  {
    NoteText();
    OwnNotes(title, provider, model);
    hide ContinuationNote, RecoveryRetryNote, EndsWithNote;
  }

  /** One sent the retry note does exactly when its seed ends with the note. */
  lemma RetriedIsTold(turn: UserTurn, messages: seq<Message>, source: string, loaded: seq<LoadedSkill>,
                      title: string, provider: string, model: string)
    ensures Told(ApplyWith(turn, messages, source, loaded, RecoveryRetryNote(title, provider, model))) <==>
            EndsWithNote(messages)
  {
    OwnNotes(title, provider, model);
    hide ContinuationNote, RecoveryRetryNote, EndsWithNote;
  }

  /** What may follow a launch before the first turn ends, when no collector
      injects anything: any event but a kept turn's end. */
  predicate InFirstTurn(ev: Event) {
    !(ev.TurnEnd? && !ev.discarded) && !(ev.Injected? && ev.cadence == Once)
  }

  /** The note is sent after the launch. */
  predicate ToldSince(log: seq<Event>, launch: nat) {
    exists i | launch <= i < |log| :: log[i] == UserMessage(ContinuationNote())
  }

  /** Compacting, the loop's notes and whatever else the first turn writes keep
      the conversation ending in a user turn, and in the note exactly if it did
      or is sent it now. */
  lemma FirstTurnKeepsEnd(reader: SeedReader, st: Replayed, sp: Spoken, ev: Event)
    requires Legal(reader, st, sp, ev) && WellFormed(st.messages) && EndsWithUser(st.messages) && InFirstTurn(ev)
    ensures Step(reader, st, ev).Replayed? && EndsWithUser(Step(reader, st, ev).messages)
    ensures EndsWithNote(Step(reader, st, ev).messages) <==>
            EndsWithNote(st.messages) || ev == UserMessage(ContinuationNote())
  {
    hide WrapFor, WellFormed, ContinuationNote, Compacts, Whole, SeedMessages, FlushInto, Taken;
    if ev.UserMessage? {
      PushTells(st.messages, ev.content);
    } else if ev.Compaction? {
      CompactsKeeps(st.messages, ev.messages);
    } else if !ev.Seed? {
      KeepsUncommitted(reader, st, ev);
    }
  }

  lemma {:induction false} FirstTurnEndsAsLaunched(reader: SeedReader, log: seq<Event>, launch: nat)
    requires LegalLog(reader, log) && launch <= |log|
    requires Fold(reader, log[..launch]).Replayed? && EndsWithUser(Fold(reader, log[..launch]).messages)
    requires forall i | launch <= i < |log| :: InFirstTurn(log[i])
    ensures Fold(reader, log).Replayed? && EndsWithUser(Fold(reader, log).messages)
    ensures EndsWithNote(Fold(reader, log).messages) <==>
            EndsWithNote(Fold(reader, log[..launch]).messages) || ToldSince(log, launch)
  {
    hide Legal, Step, Listen, Heard, WellFormed, EndsWithNote, ContinuationNote;
    if launch == |log| {
      assert log[..launch] == log;
    } else {
      var before := DropLast(log);
      assert before[..launch] == log[..launch];
      FirstTurnEndsAsLaunched(reader, before, launch);
      LegalLogIsWellFormed(reader, before);
      FirstTurnKeepsEnd(reader, Fold(reader, before), Heard(before), Last(log));
      assert ToldSince(log, launch) <==> ToldSince(before, launch) || Last(log) == UserMessage(ContinuationNote()) by {
        if ToldSince(before, launch) {
          var i :| launch <= i < |before| && before[i] == UserMessage(ContinuationNote());
          assert log[i] == before[i];
        }
        assert forall i | launch <= i < |before| :: before[i] == log[i];
      }
    }
  }

  /** The log at `path` is of a run that sent `sent` at its launch, after the
      first `launch` events, and that died before its first turn ended; and what
      it was seeded from can be read behind it. */
  ghost predicate DiedInFirstTurn(files: Files, hash: seq<Message> -> string, path: string, log: seq<Event>,
                                  launch: nat, sent: seq<Message>) {
    && path !in files && LegalLog(FilesReader(files, hash), log) && HasRunStart(log)
    && launch <= |log| && Conversed(Fold(FilesReader(files, hash), log[..launch])) == Success(sent)
    && EndsWithUser(sent) && (forall i | launch <= i < |log| :: InFirstTurn(log[i]))
    && EndOf(LastCompletion(log)) == Interrupted && FitsBehind(files, log)
  }

  /** The log at `path` is one to resume from `held`, and its continuation `next`
      first sends exactly that just if `told`. */
  ghost predicate ContinuedFrom(files: Files, hash: seq<Message> -> string, path: string, recovery: bool,
                                next: UserTurn, held: seq<Message>, told: bool) {
    var r := Prepared(files, hash, path, recovery);
    && r.Success? && r.value.Resume? && r.value.messages == held
    && (FirstConversation(Apply(next, held, r.value.seedSource, r.value.loadedSkills)) == held <==> told)
  }

  /** A run that died before its first turn ended is resumed, from the
      conversation as its last event left it: what it would have sent next. */
  lemma ContinuingFirstTurn(files: Files, hash: seq<Message> -> string, path: string, log: seq<Event>, launch: nat,
                            sent: seq<Message>, recovery: bool)
    requires DiedInFirstTurn(files, hash, path, log, launch, sent)
    ensures var now := Conversed(Fold(FilesReader(files, hash), log));
            now.Success? &&
            Prepared(files[path := log], hash, path, recovery) ==
                Success(Resume(now.value, path, None, LoadedSkills(log))) &&
            PreparedPrompted(files[path := log], hash, path) ==
                Success(PromptedContinuation(now.value, path, Interrupted, LoadedSkills(log)))
  {
    hide LegalLog, Legal, Step, Listen, Fold, WellFormed, EndsOnCall, FitsBehind, Reconstructed, LastCompletion;
    hide HasRunStart;
    hide Heard, InFirstTurn, EndsWithNote, ToldSince;
    FirstTurnEndsAsLaunched(FilesReader(files, hash), log, launch);
    ReadsBack(files, hash, path, log);
  }

  /** A run launched in any way that died before its first turn ended, whatever
      that turn compacted, hopped to or noted, is continued from exactly what it
      held; and what is sent is exactly that if and only if the note is in it
      already, from its launch or since. */
  lemma ContinuingALaunch(files: Files, hash: seq<Message> -> string, path: string, log: seq<Event>, launch: nat,
                          first: UserTurn, next: UserTurn, recovery: bool)
    requires DiedInFirstTurn(files, hash, path, log, launch, FirstConversation(first))
    ensures var held := HeldAfter(files, hash, log);
            var told := Told(first) || ToldSince(log, launch);
            && Conversed(Fold(FilesReader(files, hash), log)) == Success(held) && (EndsWithNote(held) <==> told)
            && ContinuedFrom(files[path := log], hash, path, recovery, next, held, told)
  {
    hide LegalLog, Fold, Prepared, PreparedPrompted, FitsBehind, LastCompletion, HasRunStart, InFirstTurn;
    hide ContinuationNote, EndsWithNote, ToldSince, Apply, PushUserTurn, UserMessages;
    var reader := FilesReader(files, hash);
    PushingTells(first.initialMessages, UserMessages(first));
    ContinuingFirstTurn(files, hash, path, log, launch, FirstConversation(first), recovery);
    FirstTurnEndsAsLaunched(reader, log, launch);
    FirstSent(next, Fold(reader, log).messages, path, LoadedSkills(log));
    PushTells(Fold(reader, log).messages, ContinuationNote());
  }

  /** A launch that a run accepts ends in a user turn. */
  lemma LaunchEndsWithUser(reader: SeedReader, turn: UserTurn)
    requires Launchable(reader, turn)
    ensures EndsWithUser(FirstConversation(turn))
  {
    hide ContinuationNote, EndsWithNote, WellFormed;
    var texts := UserMessages(turn);
    if texts != [] {
      hide UserMessages;
      assert FirstConversation(turn) == PushUserTurn(PushAll(turn.initialMessages, DropLast(texts)), Last(texts));
    }
  }

  lemma StartStays(start: seq<Event>, log: seq<Event>, k: nat)
    requires start <= log && |start| <= k <= |log|
    ensures start <= log[..k] && log[..k][..|start|] == start
  {
  }

  /** A cut of a legal log within its first turn, when the whole log starts with
      `launchLog`. */
  lemma CutInFirstTurn(files: Files, hash: seq<Message> -> string, path: string, events: seq<Event>,
                       launchLog: seq<Event>, k: nat, sent: seq<Message>)
    requires [RunStart] <= launchLog <= events && |launchLog| <= k < |events|
    requires forall i | |launchLog| <= i < k :: InFirstTurn(events[i])
    requires path !in files && EndsWithUser(sent)
    requires LegalLog(FilesReader(files, hash), events) && FitsBehind(files, events[..k])
    requires Conversed(Fold(FilesReader(files, hash), launchLog)) == Success(sent)
    ensures DiedInFirstTurn(files, hash, path, events[..k], |launchLog|, sent)
  {
    hide LegalLog, Fold, Conversed, FitsBehind, HasRunStart, InFirstTurn, LastCompletion, FilesReader, EndsWithUser;
    hide Legal, Heard;
    var cut := events[..k];
    StartStays(launchLog, events, k);
    StartsWithRunStart(launchLog, cut);
    PrefixIsLegal(FilesReader(files, hash), events, k);
    CutIsInterrupted(FilesReader(files, hash), events, k);
  }

  /** The same of a run that was launched by `turn`, and whose process died after
      its `k`-th event, in its first turn. */
  lemma ContinuingARun(run: AgentRun, turn: UserTurn, files: Files, hash: seq<Message> -> string, path: string, k: nat,
                       next: UserTurn, recovery: bool)
    requires [RunStart] <= run.launchLog <= run.writer.events
    requires |run.launchLog| <= k < |run.writer.events| == |run.held|
    requires forall i | |run.launchLog| <= i < k :: InFirstTurn(run.writer.events[i])
    requires run.Closed() && run.writer.reader == FilesReader(files, hash) && path !in files
    requires Launchable(run.writer.reader, turn) && FitsBehind(files, run.writer.events[..k])
    requires Conversed(Fold(run.writer.reader, run.launchLog)) == Success(FirstConversation(turn))
    ensures var cut := run.writer.events[..k];
            ContinuedFrom(files[path := cut], hash, path, recovery, next, run.held[k - 1],
                Told(turn) || ToldSince(cut, |run.launchLog|))
  {
    hide LegalLog, Fold, Heard, LoadedSkills, WellFormed, GoodRequest, Prepared, FitsBehind, Launchable;
    hide FirstConversation, InFirstTurn, Told, ToldSince, Apply, HeldInStep, EndsWithUser, EndsWithNote;
    var reader, cut := run.writer.reader, run.writer.events[..k];
    run.ClosedFacts();
    LaunchEndsWithUser(reader, turn);
    CutInFirstTurn(files, hash, path, run.writer.events, run.launchLog, k, FirstConversation(turn));
    hide DiedInFirstTurn;
    ContinuingALaunch(files, hash, path, cut, |run.launchLog|, turn, next, recovery);
    HeldAt(reader, run.writer.events, run.held, k);
  }

  /** The continuation prepared is one from `held`, and with the prompt `next`
      it first sends the note, unless that is `told`, and then the prompt. */
  predicate PromptedFrom(p: Result<PromptedContinuation, ContinuationError>, held: seq<Message>, told: bool,
                         next: UserTurn, title: string, provider: string, model: string) {
    && p.Success? && p.value.messages == held
    && FirstConversation(ApplyPrompted(next, p.value, title, provider, model)) ==
         PushUserTurn(if told then held else PushUserTurn(held, ContinuationNote()), next.message)
  }

  /** With a prompt it is continued by sending the note, if it is not there yet,
      and then the prompt: the note is there once. */
  lemma PromptingALaunch(files: Files, hash: seq<Message> -> string, path: string, log: seq<Event>, launch: nat,
                         first: UserTurn, next: UserTurn, title: string, provider: string, model: string)
    requires DiedInFirstTurn(files, hash, path, log, launch, FirstConversation(first)) && next.message != ""
    ensures PromptedFrom(PreparedPrompted(files[path := log], hash, path), HeldAfter(files, hash, log),
                Told(first) || ToldSince(log, launch), next, title, provider, model)
  {
    hide LegalLog, Fold, Prepared, PreparedPrompted, FitsBehind, LastCompletion, HasRunStart, InFirstTurn;
    hide ContinuationNote, EndsWithNote, ToldSince, PushUserTurn, ApplyPrompted, UserMessages;
    var reader := FilesReader(files, hash);
    PushingTells(first.initialMessages, UserMessages(first));
    ContinuingFirstTurn(files, hash, path, log, launch, FirstConversation(first), false);
    FirstTurnEndsAsLaunched(reader, log, launch);
    PromptedSent(next, PreparedPrompted(files[path := log], hash, path).value, title, provider, model);
  }

  /** What a prompted continuation of an interrupted run first sends. */
  lemma PromptedSent(turn: UserTurn, p: PromptedContinuation, title: string, provider: string, model: string)
    requires p.ended == Interrupted && turn.message != ""
    ensures FirstConversation(ApplyPrompted(turn, p, title, provider, model)) ==
            PushUserTurn(if EndsWithNote(p.messages) then p.messages else PushUserTurn(p.messages, ContinuationNote()),
                turn.message)
  {
    NoteText();
    hide ContinuationNote, EndsWithNote, PushUserTurn;
    var note := ContinuationNote();
    var texts := UserMessages(ApplyPrompted(turn, p, title, provider, model));
    assert PushAll(p.messages, []) == p.messages;
    if EndsWithNote(p.messages) {
      assert texts == [turn.message] && DropLast(texts) == [];
    } else {
      assert texts == [note, turn.message] && DropLast(texts) == [note] && DropLast([note]) == [];
      assert PushAll(p.messages, [note]) == PushUserTurn(p.messages, note);
    }
  }

  /** A continuation that died before its first turn ended, one with a prompt on
      an interrupted run included, is continued by sending exactly what it held:
      the note is in it and is not told again. */
  lemma ContinuingAContinuation(files: Files, hash: seq<Message> -> string, path: string, log: seq<Event>, launch: nat,
                                first: UserTurn, next: UserTurn, recovery: bool)
    requires DiedInFirstTurn(files, hash, path, log, launch, FirstConversation(first)) && Told(first)
    ensures var held := HeldAfter(files, hash, log);
            && Conversed(Fold(FilesReader(files, hash), log)) == Success(held) && EndsWithNote(held)
            && ContinuedFrom(files[path := log], hash, path, recovery, next, held, true)
  {
    hide DiedInFirstTurn, ContinuedFrom, ToldSince, Told, EndsWithNote, Fold, HeldAfter, FirstConversation;
    ContinuingALaunch(files, hash, path, log, launch, first, next, recovery);
  }

  /** When nothing was committed since the launch, the continuation sends exactly
      what was first sent if and only if that tells the note. */
  lemma ContinuingUnchanged(files: Files, hash: seq<Message> -> string, path: string, log: seq<Event>, launch: nat,
                            first: UserTurn, next: UserTurn, recovery: bool)
    requires DiedInFirstTurn(files, hash, path, log, launch, FirstConversation(first))
    requires forall i | launch <= i < |log| :: !Commits(log[i])
    ensures ContinuedFrom(files[path := log], hash, path, recovery, next, FirstConversation(first), Told(first))
  {
    hide LegalLog, Fold, FitsBehind, LastCompletion, HasRunStart, ContinuationNote, FirstConversation, InFirstTurn;
    hide Told, ContinuedFrom, EndsWithNote;
    assert log[..|log|] == log;
    CutIsLastCommit(FilesReader(files, hash), log, launch, |log|);
    ContinuingALaunch(files, hash, path, log, launch, first, next, recovery);
  }

  /** A launch that does not tell the note: the operator's prompt to a run that
      finished. Continued before its first turn ended, it is sent more than it
      was. */
  lemma FinishedRunIsNotTold(turn: UserTurn, p: PromptedContinuation, next: UserTurn, path: string, title: string,
                             provider: string, model: string)
    requires p.messages == [UserText("task"), Message(Assistant, [Text("done")])] && p.ended == DidFinish
    requires turn.message == "more"
    ensures var first := ApplyPrompted(turn, p, title, provider, model);
            var sent := p.messages + [UserText("more")];
            && !Told(first) && FirstConversation(first) == sent
            && FirstConversation(Apply(next, sent, path, [])) ==
                 p.messages + [Message(User, [Text("more"), Text(ContinuationNote())])]
  {
    NoteText();
    hide ContinuationNote;
    var first := ApplyPrompted(turn, p, title, provider, model);
    var sent := p.messages + [UserText("more")];
    assert turn.message != ContinuationNote() by { assert "more"[0] == 'm'; }
    assert UserMessages(first) == ["more"] && DropLast(["more"]) == [];
    assert PushAll(p.messages, []) == p.messages && PushAll(p.messages, ["more"]) == sent;
    PushingTells(p.messages, ["more"]);
    FirstSent(next, sent, path, []);
    assert DropLast(sent) == p.messages && Last(sent).content + [Text(ContinuationNote())] ==
                                            [Text("more"), Text(ContinuationNote())];
  }
}

/**
 The agent loop: it changes the conversation turn by turn and writes one event
 for every change.
 */
module Runner {
  import opened Wrappers
  import opened Conversation
  import opened Outcomes
  import opened Recovery
  import opened Transcript
  import opened Collector
  import opened Compaction
  import opened Skills
  import opened Replay
  import opened Protocol
  import opened Emission
  import opened Writer
  import opened Worlds

  const MAX_HTTP_RETRIES: nat := 10
  const MAX_TRIMS: nat := 65
  /** Stream calls that one provider client gets for one turn at most: four
      one-shot guards, the trims, the retries, and the call that ends it. */
  const CALLS_PER_CLIENT: nat := 80

  datatype RunError = Terminating | OperatorStop | PreflightFailed | LadderExhausted(kind: OutcomeClass)

  datatype LoopOutcome = Status(status: RunStatus, outcome: Option<OutcomeClass>) | Paused

  datatype Next = Continue | Finish(loop: LoopOutcome) | Abort(error: RunError) {
    /** It does not end the run, or ends it paused or as failed on an outcome. */
    predicate NotWell() {
      Finish? ==> loop.Paused? || (loop.status == Failed && loop.outcome.Some?)
    }

    /** It ends the run as failed on an outcome. */
    predicate Fails() {
      Finish? && loop.Status? && loop.outcome.Some?
    }
  }

  lemma NotWellMeans(next: Next)
    ensures next == Continue || next == Finish(Paused) ==> next.NotWell() && !next.Fails()
    ensures next == Finish(Status(Ok, None)) ==> !next.NotWell() && !next.Fails()
  {
  }

  lemma EndsNamed(next: Next)
    ensures next.Fails() <==> next.Finish? && next.loop.Status? && next.loop.outcome.Some?
  {
  }

  lemma FailingIsNotWell(kind: OutcomeClass)
    ensures Finish(Status(Failed, Some(kind))).NotWell() && Finish(Status(Failed, Some(kind))).Fails()
  {
  }

  lemma MovingIsNotWell(next: Next)
    requires next == Continue || next == Finish(Paused) || next.Abort?
    ensures next.NotWell() && !next.Fails()
  {
  }

  datatype RunEnd = Completed(status: RunStatus, paused: bool, outcome: Option<OutcomeClass>) | Broke(error: RunError)

  datatype FallBackEnd = LadderEmpty | Signalled | SkippedOne | Hopped(messagesChanged: bool)

  datatype Pick = StopPicking | NoneLeft | Candidate(rung: nat, target: Target, limits: Option<Limits>)

  datatype CallEnd = Answered(reply: Reply) | PausedCall | AbortedCall(error: RunError)

  /** One call's end, or the next call to make. */
  datatype TriedCall = Ended(end: CallEnd) | CallAgain(guards: Guards, request: seq<Message>, maxTokens: Option<nat>)
  {
    predicate Aborts() {
      Ended? && end.AbortedCall?
    }

    /** The reply of a call that got one is faithful. */
    predicate RepliesWell() {
      Ended? && end.Answered? ==> Faithful(end.reply.content)
    }
  }

  /** What a turn may still try on one provider client before it gives up. */
  datatype Guards = Guards(
    fallbackNoted: bool, longContext: bool, capLowered: bool, overflowCompacted: bool, trims: nat, retries: nat)
  {
    predicate Within() {
      trims <= MAX_TRIMS && retries <= MAX_HTTP_RETRIES
    }

    /** How many more times the same client can be called again. */
    function Fuel(): int {
      (if fallbackNoted then 0 else 1) + (if longContext then 0 else 1) + (if capLowered then 0 else 1) +
      (if overflowCompacted then 0 else 1) + (MAX_TRIMS - trims) + (MAX_HTTP_RETRIES - retries)
    }
  }

  const FRESH_GUARDS: Guards := Guards(false, false, false, false, 0, 0)

  datatype ErrorStep =
    | Again(guards: Guards, request: seq<Message>, maxTokens: Option<nat>)
    | Climb(overflowed: bool)
    | GiveUp(error: RunError)

  /** The once-per-client adjustments to an error, in their order. */
  function Adjusted(e: ProviderError, g: Guards, request: seq<Message>, cap: Option<nat>): Option<ErrorStep> {
    if e.fallbackUnavailable && !g.fallbackNoted then Some(Again(g.(fallbackNoted := true), request, cap))
    else if e.longContextUnavailable && !g.longContext then Some(Again(g.(longContext := true), request, cap))
    else if e.loweredCap.Some? && !g.capLowered then Some(Again(g.(capLowered := true), request, e.loweredCap))
    else None
  }

  /** An adjustment spends a guard of its own, and sends the same request. */
  lemma AdjustedSpends(e: ProviderError, g: Guards, request: seq<Message>, cap: Option<nat>)
    requires g.Within()
    ensures var step := Adjusted(e, g, request, cap);
            step.Some? ==>
              && step.value.Again? && step.value.request == request
              && step.value.guards.Within() && step.value.guards.Fuel() < g.Fuel() &&
                   step.value.guards.retries == g.retries
  {
  }

  /** What a client does about an overflow: send the compacted history, or else
      the request without its oldest exchange, or else give way to another. */
  function AfterOverflow(compacted: bool, g: Guards, request: seq<Message>, cap: Option<nat>, history: seq<Message>):
    ErrorStep
  {
    if compacted then Again(g.(overflowCompacted := true), history, cap)
    else if g.trims < MAX_TRIMS && CanTrim(request) then
      Again(g.(overflowCompacted := true, trims := g.trims + 1), TrimOldestExchange(request), cap)
    else Climb(true)
  }

  /** A client's calls for an overflow are bounded. */
  lemma OverflowSpends(compacted: bool, g: Guards, request: seq<Message>, cap: Option<nat>, history: seq<Message>)
    requires g.Within() && (compacted ==> !g.overflowCompacted)
    ensures var step := AfterOverflow(compacted, g, request, cap, history);
            && (step.Again? ==>
                  && step.guards.Within() && step.guards.Fuel() < g.Fuel() && step.guards.retries == g.retries
                  && (compacted ==> step.request == history)
                  && (!compacted ==> CanTrim(request) && step.request == TrimOldestExchange(request)))
            && (step.Climb? ==> step.overflowed && !compacted) && !step.GiveUp?
            && (compacted ==> step == Again(g.(overflowCompacted := true), history, cap))
  {
    hide TrimOldestExchange, CanTrim;
  }

  /** Trimming is the rest of it. */
  lemma TrimAnswers(g: Guards, request: seq<Message>, cap: Option<nat>, history: seq<Message>)
    requires g.Within()
    ensures var spent := g.(overflowCompacted := true);
            && spent.Within()
            && AfterOverflow(false, g, request, cap, history) ==
                 if spent.trims < MAX_TRIMS && CanTrim(request)
                 then Again(spent.(trims := spent.trims + 1), TrimOldestExchange(request), cap) else Climb(true)
  {
    hide TrimOldestExchange, CanTrim;
  }

  lemma RetrySpends(g: Guards)
    requires g.Within()
    ensures g.retries < MAX_HTTP_RETRIES ==>
              var again := g.(retries := g.retries + 1);
              again.Within() && again.Fuel() < g.Fuel()
    ensures g.retries >= MAX_HTTP_RETRIES ==> g.retries == MAX_HTTP_RETRIES
  {
  }

  /** What a client does about an error. Only a transient error that is not an
      overflow is answered by the same call once more. */
  function AfterError(e: ProviderError, compacted: bool, g: Guards, request: seq<Message>, cap: Option<nat>,
      history: seq<Message>): ErrorStep
  {
    match Adjusted(e, g, request, cap)
    case Some(step) => step
    case None =>
      if e.overflow.Some? then AfterOverflow(compacted, g, request, cap, history)
      else if e.retryable && g.retries < MAX_HTTP_RETRIES then Again(g.(retries := g.retries + 1), request, cap)
      else Climb(false)
  }

  lemma ErrorAnswers(e: ProviderError, compacted: bool, g: Guards, request: seq<Message>, cap: Option<nat>,
      history: seq<Message>)
    ensures var adjusted := Adjusted(e, g, request, cap);
            AfterError(e, compacted, g, request, cap, history) ==
            if adjusted.Some? then adjusted.value
            else if e.overflow.Some? then AfterOverflow(compacted, g, request, cap, history)
            else if e.retryable && g.retries < MAX_HTTP_RETRIES then Again(g.(retries := g.retries + 1), request, cap)
            else Climb(false)
  {
    hide Adjusted, AfterOverflow;
  }

  /** `step` is what a client does about an error. Calling again spends one of its
      guards; only a transient error that is no overflow is retried as it was; and
      it gives way only with the history untouched and nothing left to do. */
  predicate Responds(e: ProviderError, g: Guards, request: seq<Message>, cap: Option<nat>, step: ErrorStep,
      before: seq<Message>, history: seq<Message>)
  {
    && (|| step == AfterError(e, false, g, request, cap, history)
        || (!g.overflowCompacted && step == AfterError(e, true, g, request, cap, history)))
    && (step.Again? ==>
          && step.guards.Within() && step.guards.Fuel() < g.Fuel()
          && (step.guards.retries > g.retries ==> e.retryable && e.overflow.None?))
    && (step.Climb? ==>
          && history == before && (step.overflowed <==> e.overflow.Some?) && Adjusted(e, g, request, cap).None?
          && (e.overflow.None? && e.retryable ==> g.retries == MAX_HTTP_RETRIES))
  }

  lemma RespondsRightly(e: ProviderError, g: Guards, request: seq<Message>, cap: Option<nat>, step: ErrorStep,
      before: seq<Message>, history: seq<Message>)
    requires g.Within() && !step.GiveUp?
    requires var adjusted := Adjusted(e, g, request, cap);
             if adjusted.Some? then step == adjusted.value
             else if e.overflow.Some? then
               || step == AfterOverflow(false, g, request, cap, history)
               || (!g.overflowCompacted && step == AfterOverflow(true, g, request, cap, history))
             else step == AfterError(e, false, g, request, cap, history)
    requires step.Climb? ==> history == before
    ensures Responds(e, g, request, cap, step, before, history)
  {
    AdjustedSpends(e, g, request, cap);
    OverflowSpends(false, g, request, cap, history);
    if !g.overflowCompacted {
      OverflowSpends(true, g, request, cap, history);
    }
    RetrySpends(g);
    hide TrimOldestExchange, CanTrim, AfterOverflow, Guards.Fuel;
  }

  /** One call of a turn: the guards spent before it, what it sent, and its cap. */
  datatype Attempt = Attempt(guards: Guards, request: seq<Message>, cap: Option<nat>)

  /** The same client is called again after an error. */
  predicate SameClient(e: ProviderError, a: Attempt, b: Attempt) {
    var again := Again(b.guards, b.request, b.cap);
    || again == AfterError(e, false, a.guards, a.request, a.cap, b.request)
    || (!a.guards.overflowCompacted && again == AfterError(e, true, a.guards, a.request, a.cap, b.request))
  }

  /** The call after an error: the same client's again or, for an action, the
      first of another, with its own cap. The new client is sent the history as it
      is now when moving to it changed that. */
  predicate NextCall(e: ProviderError, a: Attempt, b: Attempt, hopped: bool, output: Option<nat>,
      before: seq<Message>, history: seq<Message>)
  {
    if hopped
    then b.guards == FRESH_GUARDS && b.cap == output &&
         (b.request == history || (b.request == a.request && history == before))
    else SameClient(e, a, b)
  }

  /** A call decides what comes next: its own reply or pause, and after an error
      the next call or the end. */
  predicate Decides(call: CallStep, a: Attempt, tried: TriedCall, hopped: bool, output: Option<nat>,
      before: seq<Message>, history: seq<Message>)
  {
    match call
    case Replied(reply) => tried == Ended(Answered(reply))
    case PausedMidCall => tried == Ended(PausedCall)
    case Erred(e) =>
      || tried.Aborts()
      || (tried.CallAgain? &&
          NextCall(e, a, Attempt(tried.guards, tried.request, tried.maxTokens), hopped, output, before, history))
  }

  /** An error stands between two calls, and the second is what the client does
      about it or the first of another client. */
  ghost predicate Follows(w: World, a: Attempt, b: Attempt) {
    exists t :: w.call(t).Erred? && (SameClient(w.call(t).error, a, b) || b.guards == FRESH_GUARDS)
  }

  /** The calls of a turn, from a first one. */
  ghost predicate CallsFrom(w: World, trail: seq<Attempt>, first: Attempt) {
    && (trail != [] ==> trail[0] == first)
    && forall i :: 0 < i < |trail| ==> Follows(w, trail[i - 1], trail[i])
  }

  /** The requests that calls sent. */
  function RequestsOf(trail: seq<Attempt>, mergeNext: bool): seq<(seq<Message>, bool)> {
    seq(|trail|, i requires 0 <= i < |trail| => (trail[i].request, mergeNext))
  }

  /** A call of the provider went like this. */
  ghost predicate Came(w: World, step: CallStep) {
    exists t :: w.call(t) == step
  }

  lemma FirstCall(w: World, first: Attempt, mergeNext: bool)
    ensures CallsFrom(w, [first], first) && CallsFrom(w, [], first) && RequestsOf([], mergeNext) == []
  {
  }

  lemma FuelIsLeft(g: Guards)
    ensures FRESH_GUARDS.Within() && FRESH_GUARDS.Fuel() + 1 == CALLS_PER_CLIENT
    ensures g.Within() ==> 0 <= g.Fuel() < CALLS_PER_CLIENT
  {
  }

  /** The calls of a turn, in the requests that went out. */
  lemma CallsAreSent(w: World, trail: seq<Attempt>, start: Attempt, before: seq<(seq<Message>, bool)>, mergeNext: bool)
    requires CallsFrom(w, trail, start)
    ensures SentAt(before + RequestsOf(trail, mergeNext), |before|, start.request, mergeNext)
  {
    hide Follows;
    if trail != [] {
      assert (before + RequestsOf(trail, mergeNext))[|before|] == (trail[0].request, mergeNext);
    }
  }

  lemma NoLastCall(w: World, trail: seq<Attempt>, made: Attempt, start: Attempt)
    requires CallsFrom(w, trail + [made], start)
    ensures CallsFrom(w, trail, start)
  {
    var calls := trail + [made];
    assert trail != [] ==> trail[0] == calls[0];
    forall i | 0 < i < |trail| ensures Follows(w, trail[i - 1], trail[i]) {
      assert trail[i - 1] == calls[i - 1] && trail[i] == calls[i];
    }
  }

  /** One call more, after the calls of `trail`. */
  lemma OneMoreCall(w: World, trail: seq<Attempt>, made: Attempt, start: Attempt, at: nat, tried: TriedCall,
      hopped: bool, output: Option<nat>, before: seq<Message>, history: seq<Message>, mergeNext: bool)
    requires CallsFrom(w, trail + [made], start)
    requires Decides(w.call(at + 1), made, tried, hopped, output, before, history)
    ensures RequestsOf(trail + [made], mergeNext) == RequestsOf(trail, mergeNext) + [(made.request, mergeNext)]
    ensures tried.CallAgain? ==>
              CallsFrom(w, trail + [made] + [Attempt(tried.guards, tried.request, tried.maxTokens)], start)
    ensures tried.Ended? && !tried.Aborts() ==>
              Came(w, if tried.end.Answered? then Replied(tried.end.reply) else PausedMidCall)
  {
    hide SameClient;
    var calls := trail + [made];
    if tried.CallAgain? {
      var b := Attempt(tried.guards, tried.request, tried.maxTokens);
      assert Follows(w, made, b);
      forall i | 0 < i < |calls + [b]| ensures Follows(w, (calls + [b])[i - 1], (calls + [b])[i]) {
        assert i < |calls| ==> (calls + [b])[i - 1] == calls[i - 1] && (calls + [b])[i] == calls[i];
      }
    }
  }

  datatype ClimbEnd = Moved(messagesChanged: bool) | Over(error: RunError)

  datatype DispatchEnd = AllRan(results: seq<CallResult>) | Stopped(error: RunError)

  /** What the run is asked, and the conversation it continues. */
  datatype UserTurn = UserTurn(
    message: string,
    continuePrompt: Option<string>,
    initialMessages: seq<Message>,
    seedSource: Option<string>,
    turnIndexOffset: nat,
    loadedSkills: seq<LoadedSkill>,
    operatorLoads: seq<LoadedSkill>,
    missingSkills: set<string>)

  /** The user messages of a turn, in order, the empty ones left out. */
  function UserMessages(turn: UserTurn): seq<string> {
    (if turn.message == "" then [] else [turn.message]) +
    (if turn.continuePrompt.None? || turn.continuePrompt.value == "" then [] else [turn.continuePrompt.value])
  }

  function PushAll(ms: seq<Message>, texts: seq<string>): seq<Message> {
    if texts == [] then ms else PushUserTurn(PushAll(ms, DropLast(texts)), Last(texts))
  }

  /** The conversation that the run's first request is built from. */
  function FirstConversation(turn: UserTurn): seq<Message> {
    PushAll(turn.initialMessages, UserMessages(turn))
  }

  lemma StartsWithRunStart(launch: seq<Event>, log: seq<Event>)
    requires [RunStart] <= launch <= log
    ensures HasRunStart(log)
  {
    assert log[0] == RunStart;
  }

  /** What a launch must be given: a well-formed seed, a seed that is ready to
      send when nothing is added to it, a reference that really is the seed, and
      the continuation note only where it is not told already. */
  ghost predicate Launchable(reader: SeedReader, turn: UserTurn) {
    && WellFormed(turn.initialMessages)
    && (UserMessages(turn) == [] ==> EndsWithUser(turn.initialMessages))
    && (turn.seedSource.Some? ==> reader.resolve(turn.seedSource.value) == Success(turn.initialMessages))
    && (turn.message == ContinuationNote() ==> !EndsWithNote(turn.initialMessages))
    && (turn.continuePrompt.Some? ==> turn.continuePrompt.value != ContinuationNote())
  }

  /** A request a provider takes: well formed, ending in a user message or in
      the paused content that the reply continues, and without two replies in a
      row when the run was seeded with none. */
  ghost predicate GoodRequest(request: seq<Message>, mergeNext: bool, apart: bool) {
    WellFormed(request) && Sendable(request, mergeNext) && (apart ==> RepliesApart(request))
  }

  /** What such a request looks like: every call is answered in the very next
      message and every result follows its call, and it ends in a user message
      or, under the merge flag, in content that calls nothing. */
  lemma RequestShape(request: seq<Message>, mergeNext: bool, apart: bool)
    requires GoodRequest(request, mergeNext, apart)
    ensures request != [] && request[0].role.User? && Answers(request[0].content) == []
    ensures Last(request).role.User? || (mergeNext && Uses(Last(request).content) == [])
    ensures forall i | 0 <= i < |request| - 1 :: Answers(request[i + 1].content) == Uses(request[i].content)
    ensures apart ==> forall i | 0 < i < |request| :: request[i].role.User? || request[i - 1].role.User?
  {
    LastCallsNothing(request);
    assert AnswersAt(request, 0) == UsesAt(request, -1);
    forall i | 0 <= i < |request| - 1 ensures Answers(request[i + 1].content) == Uses(request[i].content) {
      assert AnswersAt(request, i + 1) == UsesAt(request, i);
    }
  }

  /** The request numbered `n`, once there is one. */
  ghost predicate SentAt(requests: seq<(seq<Message>, bool)>, n: nat, request: seq<Message>, mergeNext: bool) {
    |requests| > n ==> requests[n] == (request, mergeNext)
  }

  /** The messages that carry injections, in order. */
  function SentOf(ds: seq<Delivered>): seq<Message> {
    if ds == [] then [] else SentOf(DropLast(ds)) + [Last(ds).Sent()]
  }

  lemma NothingCollected()
    ensures Assembled([], INJECTION_TOKEN_BUDGET) == TurnAssembly([], [])
  {
  }

  /** Injected messages at the end leave a request one that a provider takes. */
  lemma {:induction false} InjectionsKeepRequest(request: seq<Message>, ds: seq<Delivered>, mergeNext: bool,
                                                 apart: bool)
    requires GoodRequest(request, mergeNext, apart)
    ensures GoodRequest(request + SentOf(ds), mergeNext, apart)
  {
    hide WrapFor, WellFormed, RepliesApart;
    if ds == [] {
      assert request + [] == request;
    } else {
      var d := Last(ds);
      var before := request + SentOf(DropLast(ds));
      InjectionsKeepRequest(request, DropLast(ds), mergeNext, apart);
      WrapIsPlain(d.injection.kind, d.injection.source, d.injection.content);
      PushPlainKeeps(before, d.Sent());
      if apart {
        UserKeepsApart(before, d.Sent(), "");
      }
      assert request + SentOf(ds) == before + [d.Sent()];
    }
  }

  /** No carried skill is one that only a missing frozen skill stands for. */
  ghost predicate NoneOnlyMissing(carried: seq<LoadedSkill>, granted: map<string, Granted>, missing: set<string>) {
    forall i | 0 <= i < |carried| :: FateOf(carried, i, granted, missing) != Hold
  }

  lemma SeedingStarts(carried: seq<LoadedSkill>, granted: map<string, Granted>, missing: set<string>)
    ensures SeededSet(carried, 0, granted, missing) == []
    ensures NoteAll([], SeedEvents(carried, 0, granted, missing)) == []
  {
  }

  lemma SeedingAgrees(carried: seq<LoadedSkill>, granted: map<string, Granted>, missing: set<string>)
    ensures NoteAll([], SeedEvents(carried, |carried|, granted, missing)) ==
            SeededSet(carried, |carried|, granted, missing) <==>
            NoneOnlyMissing(carried, granted, missing)
  {
    hide FateOf, NoteAll, SeedEvents, SeededSet;
    SeedIsRecordedExactly(carried, granted, missing);
  }

  /** `loaded` with the operator's loads moved to its end, in order. */
  function Operated(loaded: seq<LoadedSkill>, loads: seq<LoadedSkill>): seq<LoadedSkill> {
    if loads == [] then loaded else MoveToEnd(Operated(loaded, DropLast(loads)), Last(loads))
  }

  /** Events that record what was loaded, and notices about it. */
  predicate AboutSkills(events: seq<Event>) {
    forall e | e in events :: e.SkillLoad? || e.Notice?
  }

  lemma {:induction false} LoadEventsAreAboutSkills(again: seq<LoadedSkill>, changed: seq<string>)
    ensures AboutSkills(LoadEvents(again, changed))
  {
    if again != [] {
      LoadEventsAreAboutSkills(DropLast(again), changed);
    }
  }

  lemma {:induction false} SeedEventsAreAboutSkills(carried: seq<LoadedSkill>, n: nat, granted: map<string, Granted>,
                                                    missing: set<string>)
    requires n <= |carried|
    ensures AboutSkills(SeedEvents(carried, n, granted, missing))
  {
    if n > 0 {
      SeedEventsAreAboutSkills(carried, n - 1, granted, missing);
    }
  }

  /** Rebuilding and re-attaching never produce the continuation note. */
  lemma RebuiltIsNotNote(task: string, summary: string)
    ensures NoteCount(UserText(task + SUMMARY_HEADING + summary).content) == 0
  {
    NoteText();
    hide ContinuationNote;
    var text := task + SUMMARY_HEADING + summary;
    assert text[|task|] == SUMMARY_HEADING[0] == '\n';
    NoNoteCount(UserText(text).content);
  }

  /** Whether a compaction begun at the given moment goes through. */
  predicate CompactionRuns(world: World, limits: Limits, ms: seq<Message>, calibration: nat, at: nat) {
    var threshold := limits.CompactThreshold();
    threshold.Some? &&
    CompactMessages(ms, threshold.value, calibration, SummaryAt(world, at)).Done?
  }

  /** An overflow is answered by a compaction when one can run, over the size
      that the provider reports, or else the last one that was measured. */
  predicate OverflowCompacts(w: World, o: Overflow, limits: Limits, ms: seq<Message>, last: nat, at: nat) {
    var measured := if o.tokens.Some? then o.tokens.value else last;
    CompactionRuns(w, limits, ms, if measured > 1 then measured else 1, at + 1)
  }

  lemma OverflowRuns(w: World, o: Overflow, limits: Limits, ms: seq<Message>, last: nat, at: nat)
    ensures var measured := if o.tokens.Some? then o.tokens.value else last;
            OverflowCompacts(w, o, limits, ms, last, at) ==
            CompactionRuns(w, limits, ms, if measured > 1 then measured else 1, at + 1)
  {
    hide CompactionRuns;
  }

  /** A block of skills is not the continuation note. */
  lemma SkillsAreNotNote(block: string)
    requires StartsWith(block, REATTACH_MARKER)
    ensures !IsNote(Text(block))
  {
    NoteText();
    hide ContinuationNote;
    assert block[0] == REATTACH_MARKER[0] == '<';
  }

  /** One text block more in the opening message of a compacted history leaves
      it one. */
  lemma MoreTextKeepsCompacts(before: seq<Message>, after: seq<Message>, text: string)
    requires Compacts(before, after)
    ensures after != []
    ensures Compacts(before, after[0 := Message(after[0].role, after[0].content + [Text(text)])])
  {
    hide Answers;
    var k :| 2 <= k <= |before| - 2 && CompactsAt(before, after, k);
    var put := after[0 := Message(after[0].role, after[0].content + [Text(text)])];
    assert put[1..] == after[1..];
    assert CompactsAt(before, put, k);
  }

  /** Putting a block of skills into the opening message of a compacted history
      keeps it one, without the continuation note. */
  lemma ReattachKeepsCompacts(before: seq<Message>, after: seq<Message>, block: string)
    requires Compacts(before, after) && NoteCount(after[0].content) == 0 && StartsWith(block, REATTACH_MARKER)
    ensures var put := after[0 := Message(after[0].role, after[0].content + [Text(block)])];
            Compacts(before, put) && NoteCount(put[0].content) == 0
  {
    hide Compacts, IsNote, StartsWith;
    SkillsAreNotNote(block);
    MoreTextKeepsCompacts(before, after, block);
    assert DropLast(after[0].content + [Text(block)]) == after[0].content;
  }

  /** The first text of a compacted history is the task's, then the summariser's
      answer. */
  ghost predicate OpensBehind(after: seq<Message>, before: seq<Message>, answer: Option<Reply>) {
    && after != [] && after[0].content != [] && after[0].content[0].Text?
    && before != [] && answer.Some? && Opens(after[0].content[0].text, before[0], answer.value)
  }

  /** The answer that a compaction begun at the given moment was given. */
  function SummaryAt(world: World, at: nat): Option<Reply> {
    if world.terminating(at) then None else world.summary(at + 1)
  }

  /** It stays so while the first block does. */
  lemma OpensAlike(first: seq<Message>, after: seq<Message>, before: seq<Message>, answer: Option<Reply>)
    requires OpensBehind(first, before, answer)
    requires after != [] && first != [] && first[0].content <= after[0].content
    ensures OpensBehind(after, before, answer)
  {
    hide Opens;
  }

  lemma CompactedForm(ms: seq<Message>, threshold: nat, lastInputTokens: nat, answer: Option<Reply>)
    requires WellFormed(ms) && CompactMessages(ms, threshold, lastInputTokens, answer).Done?
    ensures var r := CompactMessages(ms, threshold, lastInputTokens, answer);
            Compacts(ms, r.messages) && r.messages != [] && NoteCount(r.messages[0].content) == 0 &&
            OpensBehind(r.messages, ms, answer)
  {
    CompactionConserves(ms, threshold, lastInputTokens, answer);
    hide Partition, RecentBudget, TaskText, SummaryOf, ContinuationNote, Compacts, Opens;
    RebuiltIsNotNote(TaskText(ms[0]), SummaryOf(answer.value));
  }

  lemma ReattachedNames(loaded: seq<LoadedSkill>, r: Reattachment)
    requires Distinct(Names(loaded)) && Distinct(Names(r.reattached))
    requires r.loaded == Others(loaded, r.reattached) + r.reattached
    ensures Distinct(Names(r.loaded))
    ensures AboutSkills(ReattachEvents(r))
  {
    MovedToEndIsOthersThenFresh(loaded, r.reattached);
    MovedToEndIsDistinct(loaded, r.reattached);
    LoadEventsAreAboutSkills(r.reattached, r.changed);
  }

  lemma {:induction false} MovedToEndIsDistinct(loaded: seq<LoadedSkill>, again: seq<LoadedSkill>)
    requires Distinct(Names(loaded))
    ensures Distinct(Names(MovedToEnd(loaded, again)))
  {
    if again != [] {
      MovedToEndIsDistinct(loaded, DropLast(again));
      MoveToEndIsDistinct(MovedToEnd(loaded, DropLast(again)), Last(again));
    }
  }

  /** The events that show the blocks of a discarded turn: its text only when
      it was not streamed, and nothing that would join the conversation. */
  function ShownUpTo(content: seq<ContentBlock>, boundary: Option<nat>, noStream: bool, n: nat): seq<Event>
    requires n <= |content|
  {
    if n == 0 then []
    else
      var block := content[n - 1];
      ShownUpTo(content, boundary, noStream, n - 1) +
      (if block.Text? then (if noStream && block.text != "" then [AssistantDelta(block.text)] else [])
       else if block.ToolResult? then []
       else [AssistantBlock(block, IsAbandoned(boundary, n - 1, block))])
  }

  /** What is shown of a block. */
  predicate ShowsBlock(content: seq<ContentBlock>, noStream: bool, i: nat)
    requires i < |content|
  {
    match content[i]
    case Text(text) => noStream && text != ""
    case ToolResult(_, _, _) => false
    case _ => true
  }

  /** One block more is shown by one event of its own, or none: its text as it
      would have been streamed, and any other block as the block it was, marked
      when a fallback follows that abandons it. Replayed, they gather only blocks
      that are no text. */
  lemma ShowsOneMore(content: seq<ContentBlock>, noStream: bool, n: nat)
    requires n < |content|
    ensures var boundary := FallbackBoundary(content);
            var before, after := ShownUpTo(content, boundary, noStream, n),
                ShownUpTo(content, boundary, noStream, n + 1);
            if !ShowsBlock(content, noStream, n) then after == before
            else
              && |after| == |before| + 1 && before <= after
              && if content[n].Text? then Last(after) == AssistantDelta(content[n].text)
                 else
                   Last(after).AssistantBlock? && Last(after).block == content[n] &&
                   (Last(after).abandoned <==>
                     (content[n].ToolUse? || content[n].Reasoning?) &&
                     exists j | n < j < |content| :: content[j].Fallback?)
  {
    AbandonedMeaning(content, n);
    hide IsAbandoned, FallbackBoundary;
  }

  /** What the model reads of a call that did not stop the run: a refused one
      as an error, an answered one clamped. */
  function ResultOf(id: string, step: ToolStep): Option<CallResult> {
    match step
    case NotGranted => Some(CallResult(id, "", Some("unknown tool")))
    case Denied => Some(CallResult(id, "", Some("permission_denied")))
    case OperatorStops => None
    case Ran(output, error, _) => Some(CallResult(id, ClampToolResult(output), error))
    case ToolFailed(message) => Some(CallResult(id, "", Some(message)))
  }

  /** Each result is what a tool answered to the call at its place. */
  ghost predicate AllAnswered(world: World, uses: seq<string>, results: seq<CallResult>) {
    if uses == [] || results == [] then uses == [] && results == []
    else
      && AllAnswered(world, DropLast(uses), DropLast(results))
      && exists t :: Some(Last(results)) == ResultOf(Last(uses), world.tool(t))
  }

  lemma OneMoreAnswered(world: World, uses: seq<string>, results: seq<CallResult>, i: nat, r: CallResult, t: nat)
    requires i < |uses| && AllAnswered(world, uses[..i], results) && Some(r) == ResultOf(uses[i], world.tool(t))
    ensures AllAnswered(world, uses[..i + 1], results + [r])
    ensures ResultIds(results) == uses[..i] ==> ResultIds(results + [r]) == uses[..i + 1]
    ensures ResultMap(results + [r]) == ResultMap(results)[r.id := (r.output, r.error)]
  {
    hide ResultOf;
    assert DropLast(results + [r]) == results && DropLast(uses[..i + 1]) == uses[..i];
    ResultHasId(uses[i], world.tool(t));
  }

  lemma NothingAnswered(world: World)
    ensures AllAnswered(world, [], [])
  {
  }

  lemma ResultHasId(id: string, step: ToolStep)
    ensures ResultOf(id, step).Some? ==> ResultOf(id, step).value.id == id
  {
    hide ClampToolResult;
  }

  /** The skill that a call loads, when it succeeded. */
  function LoadOf(step: ToolStep): Option<LoadedSkill> {
    if step.Ran? && step.error.None? then step.loads else None
  }

  /** A call is answered unless the operator stops the run, under its own id. Only
      a tool that ran says anything, whole when it fits the clamp; every other
      answer is an error. A skill is loaded only by a call without one. */
  lemma ResultTells(id: string, step: ToolStep)
    ensures ResultOf(id, step).None? <==> step.OperatorStops?
    ensures ResultOf(id, step).Some? ==>
              var r := ResultOf(id, step).value;
              && r.id == id && (r.error.None? <==> step.Ran? && step.error.None?)
              && (!step.Ran? ==> r.output == "")
              && (step.Ran? ==> r.error == step.error)
              && (step.Ran? && |step.output| <= MAX_TOOL_RESULT_BYTES ==> r.output == step.output)
              && (step.ToolFailed? ==> r.error == Some(step.message))
              && (LoadOf(step).Some? ==> r.error.None?)
    ensures step.Ran? && step.error.None? ==> LoadOf(step) == step.loads
  {
  }

  /** A block added to the turn being written. */
  function Plus(accum: Accum, block: ContentBlock): Accum {
    Accum(accum.blocks + [block], if block.ToolUse? then accum.calls + [block.id] else accum.calls, accum.results)
  }

  lemma NothingKept()
    ensures Uses([]) == [] && !Speaks([])
  {
  }

  /** The kept content one block further on. */
  lemma KeptStep(content: seq<ContentBlock>, boundary: Option<nat>, i: nat)
    requires i < |content| && AllRecordable(KeptUpTo(content, boundary, |content|))
    ensures !IsAbandoned(boundary, i, content[i]) ==> Recordable(content[i])
    ensures var before, after := KeptUpTo(content, boundary, i), KeptUpTo(content, boundary, i + 1);
            && after == (if IsAbandoned(boundary, i, content[i]) then before else before + [content[i]])
            && Uses(after) == Uses(before) +
                 (if !IsAbandoned(boundary, i, content[i]) && content[i].ToolUse? then [content[i].id] else [])
            && (Speaks(after) ==> Speaks(before) || (content[i].Text? && !Blank(content[i].text)))
  {
    hide Recordable, Blank;
    var before, after := KeptUpTo(content, boundary, i), KeptUpTo(content, boundary, i + 1);
    KeptMembers(content, boundary, |content|);
    RecordableSnoc(before, content[i]);
    assert before + [] == before && Uses(before) + [] == Uses(before);
    assert !IsAbandoned(boundary, i, content[i]) ==> content[i] in KeptUpTo(content, boundary, |content|);
  }

  lemma {:induction false} NoResultsNoAnswers(blocks: seq<ContentBlock>)
    requires AllRecordable(blocks)
    ensures Answers(blocks) == []
  {
    if blocks != [] {
      assert Last(blocks) in blocks && forall b | b in DropLast(blocks) :: b in blocks;
      NoResultsNoAnswers(DropLast(blocks));
    }
  }

  /** A dispatched turn is whole, and flushing it is committing it. */
  lemma TurnIsWhole(kept: seq<ContentBlock>, rs: seq<CallResult>, ms: seq<Message>, merge: bool)
    requires AllRecordable(kept) && Distinct(Uses(kept)) && ResultIds(rs) == Uses(kept)
    ensures Whole(Accum(kept, Uses(kept), ResultMap(rs)))
    ensures FlushInto(ms, Accum(kept, Uses(kept), ResultMap(rs)), merge) == CommitTurn(ms, merge, kept, rs)
  {
    NoResultsNoAnswers(kept);
    ResultMapHolds(rs);
    DrainIsBlocks(rs, ResultMap(rs));
    forall id | id in Uses(kept) ensures id in ResultMap(rs) {
      var i :| 0 <= i < |rs| && ResultIds(rs)[i] == id;
      assert rs[i].id in ResultMap(rs);
    }
  }

  /** What a commit does, and that it keeps replies apart. */
  lemma CommitJoins(ms: seq<Message>, merge: bool, kept: seq<ContentBlock>, rs: seq<CallResult>, apart: bool)
    requires Sendable(ms, merge) && (apart ==> RepliesApart(ms))
    ensures TurnJoins(ms, merge, kept, ResultBlocks(rs), CommitTurn(ms, merge, kept, rs))
    ensures apart ==> RepliesApart(CommitTurn(ms, merge, kept, rs))
  {
    hide TurnJoins, RepliesApart;
    AppendedTurnJoins(ms, merge, kept, ResultBlocks(rs));
    if apart {
      TurnKeepsApart(ms, merge, kept, ResultBlocks(rs), CommitTurn(ms, merge, kept, rs));
    }
  }

  /** An outcome that is more than a warning. */
  predicate IsTrouble(o: Option<Outcome>) {
    o.Some? && SeverityOf(o.value.kind) != Warning
  }

  /** An outcome that a kept turn can be carried on from. */
  predicate CanCarryOn(o: Outcome) {
    PolicyOf(o).rung0 in CONTINUING
  }

  /** The success rule: the reply has no outcome or only a warning, calls no
      tool, and leaves non-blank text in the conversation. */
  ghost predicate Succeeds(r: Reply) {
    && !IsTrouble(ClassifyReply(r))
    && Uses(ConversationContent(r.content)) == []
    && Speaks(ConversationContent(r.content))
  }

  /** What is recorded of a reply ahead of its content: its usage, the refusal
      that a server-side fallback answered for, and its own outcome. */
  function NotesOn(turnIdx: nat, reply: Reply, o: Option<Outcome>): seq<Event> {
    [Usage(false)] +
    (if reply.servedBy.Some? then [OutcomeSeen(turnIdx, Refusal), RecoveryTaken(1, ServedByFallback, false, false)]
        else []) +
    (if o.Some? then [OutcomeSeen(turnIdx, o.value.kind)] else [])
  }

  /** A reply whose outcome is more than a warning. */
  predicate Troubled(r: Reply) {
    IsTrouble(ClassifyReply(r))
  }

  /** A kept reply either is quiet, and then speaks unless it calls a tool, or
      has a rung-0 step that carries it on; an empty one calls nothing. */
  lemma KeptFacts(r: Reply)
    requires var o := ClassifyReply(r); o.Some? ==> !PolicyOf(o.value).discardPartial
    ensures var o := ClassifyReply(r);
            if IsTrouble(o)
            then CanCarryOn(o.value)
            else Uses(ConversationContent(r.content)) == [] ==> Speaks(ConversationContent(r.content))
    ensures ClassifyReply(r).Some? && ClassifyReply(r).value.kind == EmptyReply ==>
            Uses(ConversationContent(r.content)) == []
  {
    EmptyReplyExactly(r);
    if ClassifyReply(r).Some? {
      EveryErrorReplyHasAStep(r);
    }
    if !Troubled(r) && Uses(ConversationContent(r.content)) == [] {
      QuietReplySpeaks(r);
    }
    hide HasUsableContent, Speaks, Uses, ConversationContent;
  }

  /** Only a reply with an error outcome is discarded, and it never succeeds. */
  lemma DiscardedIsAnError(r: Reply)
    ensures var o := ClassifyReply(r);
            o.Some? && PolicyOf(o.value).discardPartial ==> Troubled(r) && !Succeeds(r)
  {
  }

  lemma SendableMeans(ms: seq<Message>, merge: bool)
    ensures Sendable(ms, merge) ==> ms != []
    ensures EndsWithUser(ms) ==> Sendable(ms, merge)
  {
  }

  lemma KeptIsTaken(world: World, before: seq<Message>, merge: bool, r: Reply, after: seq<Message>)
    requires !Discards(r)
    requires if ClassifyReply(r).Some? && ClassifyReply(r).value.kind == EmptyReply then after == before
             else Joined(world, before, merge, r, after)
    ensures ReplyTaken(world, before, merge, r, after)
  {
    hide Discards, ClassifyReply, Joined;
  }

  /** How a kept turn ends: well exactly when it called nothing and met no
      trouble. */
  lemma KeptEnds(r: Reply, next: Next, ms: seq<Message>, sp: Spoken)
    requires var o, calls := ClassifyReply(r), Uses(ConversationContent(r.content));
             && !next.Abort? && (next.NotWell() || next == Finish(Status(Ok, None)))
             && (next == Finish(Status(Ok, None)) <==> calls == [] && !IsTrouble(o))
             && (calls == [] && !IsTrouble(o) ==>
                   Speaks(ConversationContent(r.content)) && EndsWithAssistant(ms) && SpeaksNow(sp))
    ensures EndsRightly(next, Some(r), ms, sp)
    ensures Succeeds(r) ==> next == Finish(Status(Ok, None))
  {
    hide ClassifyReply, IsTrouble, Speaks, SpeaksNow;
  }

  lemma KeptMerges(r: Reply, before: bool, after: bool)
    requires after ==>
               || Pauses(ClassifyReply(r))
               || (before && ClassifyReply(r).Some? && ClassifyReply(r).value.kind == EmptyReply)
    ensures after ==> MergesAfter(r, before)
  {
    StepByStop(r);
    hide Discards, ClassifyReply, PolicyFor, HasUsableContent;
  }

  /** An outcome whose rung-0 step sends the paused content again. */
  predicate Pauses(o: Option<Outcome>) {
    o.Some? && PolicyOf(o.value).rung0 == ContinuePause
  }

  lemma CanCarryOnMeans(o: Outcome)
    ensures CanCarryOn(o) <==> PolicyOf(o).rung0 in CONTINUING
    ensures Pauses(Some(o)) <==> PolicyOf(o).rung0 == ContinuePause
  {
    hide PolicyFor;
  }

  lemma TroubleMeans(o: Option<Outcome>)
    ensures IsTrouble(o) ==> o.Some?
    ensures o.Some? && o.value.kind == EmptyReply ==> IsTrouble(o)
  {
  }

  lemma DiscardsMeans(r: Reply)
    ensures Discards(r) <==> ClassifyReply(r).Some? && PolicyOf(ClassifyReply(r).value).discardPartial
    ensures Troubled(r) == IsTrouble(ClassifyReply(r))
  {
    hide ClassifyReply, PolicyOf, IsTrouble;
  }

  lemma DiscardedTakesNothing(world: World, ms: seq<Message>, merge: bool, r: Reply)
    requires Discards(r)
    ensures ReplyTaken(world, ms, merge, r, ms) && (merge ==> MergesAfter(r, merge))
    ensures !Succeeds(r) && Troubled(r)
  {
    DiscardedIsAnError(r);
    hide ClassifyReply, PolicyFor, Succeeds;
  }

  lemma DiscardedFacts(r: Reply, o: Outcome)
    requires ClassifyReply(r) == Some(o) && Discards(r)
    ensures IsTrouble(Some(o)) && PolicyOf(o).rung0 !in CONTINUING
    ensures PolicyOf(o).rung0 == RetryTurn <==> r.stop == IncompleteStop
  {
  }

  lemma NoResults()
    ensures ResultMap([]) == map[] && ResultIds([]) == []
  {
  }

  /** How a turn ends: a reply that succeeds ends the run well, and no other
      reply does. */
  ghost predicate EndsRightly(next: Next, last: Option<Reply>, ms: seq<Message>, sp: Spoken) {
    && (next.Continue? ==> last.Some? && !Succeeds(last.value))
    && (next.Finish? && next.loop.Status? ==>
          && last.Some? && (next.loop.status == Ok <==> Succeeds(last.value))
          && ((next.loop.status == Failed && next.loop.outcome.Some?) || next.loop == Status(Ok, None)))
    && (next == Finish(Status(Ok, None)) ==> EndsWithAssistant(ms) && SpeaksNow(sp))
  }

  lemma AbortEndsRightly(error: RunError, ms: seq<Message>, sp: Spoken)
    ensures EndsRightly(Abort(error), None, ms, sp)
  {
  }

  lemma CommitEnds(ms: seq<Message>, merge: bool, kept: seq<ContentBlock>, rs: seq<CallResult>)
    ensures rs != [] ==> EndsWithUser(CommitTurn(ms, merge, kept, rs))
    ensures rs == [] && Speaks(kept) ==> EndsWithAssistant(CommitTurn(ms, merge, kept, rs))
  {
  }

  /** The loop's own notes are not the continuation note. */
  lemma OwnNotes(title: string, provider: string, model: string)
    ensures RecoveryRetryNote(title, provider, model) != ContinuationNote()
  {
    NoteText();
    hide ContinuationNote;
    assert RecoveryRetryNote(title, provider, model)[0] == 'A';
  }

  lemma CorrectionIsNotNote(name: string, error: string)
    ensures MalformedNote(name, error) != ContinuationNote()
  {
    NoteText();
    hide ContinuationNote;
    assert MalformedNote(name, error)[0] == MALFORMED_NOTE_PREFIX[0] == 'Y';
  }

  lemma NudgeIsNotNote()
    ensures EmptyReplyNote() != ContinuationNote()
  {
    NoteText();
    hide ContinuationNote;
    assert EmptyReplyNote()[0] == 'Y';
  }

  lemma TruncationIsNotNote()
    ensures TruncationNote() != ContinuationNote()
  {
    NoteText();
    hide ContinuationNote;
    assert TruncationNote()[0] == 'Y';
  }

  // ------------------------------------------------- effect on a conversation

  /** A note of the loop's own. */
  ghost predicate OwnNote(note: string) {
    || note == TruncationNote() || note == EmptyReplyNote()
    || (exists name, error :: note == MalformedNote(name, error))
    || (exists title, provider, model :: note == RecoveryRetryNote(title, provider, model))
  }

  /** What the loop itself does to a conversation between replies. */
  ghost predicate UpkeepStep(before: seq<Message>, after: seq<Message>) {
    Compacts(before, after) || exists note :: OwnNote(note) && after == PushUserTurn(before, note)
  }

  ghost predicate UpkeepTrail(trail: seq<seq<Message>>) {
    trail != [] && forall i | 0 <= i < |trail| - 1 :: UpkeepStep(trail[i], trail[i + 1])
  }

  /** Any number of such steps. */
  ghost predicate Upkeep(before: seq<Message>, after: seq<Message>) {
    exists trail :: UpkeepTrail(trail) && trail[0] == before && Last(trail) == after
  }

  lemma NoUpkeep(ms: seq<Message>)
    ensures Upkeep(ms, ms)
  {
    assert UpkeepTrail([ms]) && Last([ms]) == ms;
  }

  lemma OneUpkeep(before: seq<Message>, after: seq<Message>)
    requires UpkeepStep(before, after)
    ensures Upkeep(before, after)
  {
    hide UpkeepStep;
    var trail := [before, after];
    assert UpkeepTrail(trail) && trail[0] == before && Last(trail) == after;
  }

  lemma MoreUpkeep(a: seq<Message>, b: seq<Message>, c: seq<Message>)
    requires Upkeep(a, b) && Upkeep(b, c)
    ensures Upkeep(a, c)
  {
    hide UpkeepStep;
    var s :| UpkeepTrail(s) && s[0] == a && Last(s) == b;
    var t :| UpkeepTrail(t) && t[0] == b && Last(t) == c;
    var all := s + t[1..];
    forall i | 0 <= i < |all| - 1 ensures UpkeepStep(all[i], all[i + 1]) {
      if i >= |s| - 1 {
        assert all[i] == t[i - (|s| - 1)] && all[i + 1] == t[i + 1 - (|s| - 1)];
      }
    }
    assert UpkeepTrail(all) && all[0] == a && Last(all) == c;
  }

  lemma CompactionIsUpkeep(before: seq<Message>, after: seq<Message>, ran: bool)
    requires if ran then Compacts(before, after) else after == before
    ensures Upkeep(before, after)
  {
    hide Compacts;
    NoUpkeep(before);
    if ran {
      assert UpkeepStep(before, after);
      OneUpkeep(before, after);
    }
  }

  lemma NoteIsUpkeep(before: seq<Message>, note: string)
    requires OwnNote(note)
    ensures Upkeep(before, PushUserTurn(before, note))
  {
    hide OwnNote, PushUserTurn, Compacts;
    assert UpkeepStep(before, PushUserTurn(before, note));
    OneUpkeep(before, PushUserTurn(before, note));
  }

  /** Upkeep never adds a word of the model's: each assistant message after it
      was there before. */
  lemma {:induction false} UpkeepAddsNoReply(trail: seq<seq<Message>>, m: Message)
    requires UpkeepTrail(trail) && m in Last(trail) && m.role.Assistant?
    ensures m in trail[0]
  {
    if |trail| > 1 {
      var a, b := trail[|trail| - 2], trail[|trail| - 1];
      assert UpkeepStep(trail[|trail| - 2], trail[|trail| - 2 + 1]);
      StepAddsNoReply(a, b, m);
      hide UpkeepStep;
      assert UpkeepTrail(DropLast(trail)) && Last(DropLast(trail)) == a;
      UpkeepAddsNoReply(DropLast(trail), m);
    }
  }

  lemma StepAddsNoReply(a: seq<Message>, b: seq<Message>, m: Message)
    requires UpkeepStep(a, b) && m in b && m.role.Assistant?
    ensures m in a
  {
    hide OwnNote;
    if Compacts(a, b) {
      var k :| 2 <= k <= |a| - 2 && CompactsAt(a, b, k);
      assert b == [b[0]] + a[k..];
    } else {
      var note :| OwnNote(note) && b == PushUserTurn(a, note);
    }
  }

  /** The note that carries a kept turn on; none where its tool calls do. */
  function NoteFor(rung0: Rung0, made: bool, malformed: (string, string)): Option<string> {
    match rung0
    case ContinueTruncated | CompactThenContinue => if made then None else Some(TruncationNote())
    case CorrectMalformed => Some(MalformedNote(malformed.0, malformed.1))
    case NudgeEmpty => Some(EmptyReplyNote())
    case _ => None
  }

  /** The conversation ends in a user turn whose last text is `note`. */
  predicate EndsWithText(ms: seq<Message>, note: string) {
    EndsWithUser(ms) && Last(ms).content != [] && Last(Last(ms).content) == Text(note)
  }

  lemma PushEndsWithText(ms: seq<Message>, note: string)
    ensures EndsWithText(PushUserTurn(ms, note), note)
  {
  }

  /** How a rung-0 step carries a kept turn on: with its note, or by the results
      of its calls, or by sending the paused content again for the next reply to
      join. */
  predicate GoesOn(rung0: Rung0, made: bool, malformed: (string, string), ms: seq<Message>, merge: bool) {
    match NoteFor(rung0, made, malformed)
    case Some(note) => EndsWithText(ms, note)
    case None => if made then EndsWithUser(ms) else merge
  }

  /** What carrying on leaves, step by step. */
  lemma StepsGoOn(rung0: Rung0, made: bool, malformed: (string, string))
    ensures forall ms, merge :: GoesOn(rung0, made, malformed, ms, merge) <==>
              match NoteFor(rung0, made, malformed)
              case Some(note) => EndsWithText(ms, note)
              case None => if made then EndsWithUser(ms) else merge
    ensures rung0 == ContinuePause ==> NoteFor(rung0, made, malformed).None?
  {
    hide EndsWithText, EndsWithUser;
  }

  lemma SameEnd(ms: seq<Message>, before: seq<Message>)
    requires ms != [] && before != [] && Last(ms) == Last(before)
    ensures EndsWithUser(ms) <==> EndsWithUser(before)
  {
  }

  lemma PushedIsSendable(ms: seq<Message>, text: string, merge: bool)
    ensures EndsWithUser(PushUserTurn(ms, text)) && Sendable(PushUserTurn(ms, text), merge)
  {
  }

  /** The note by why the provider stopped. */
  lemma NoteByStop(r: Reply)
    requires IsTrouble(ClassifyReply(r)) && !Discards(r)
    ensures var o := ClassifyReply(r).value;
            var made := Uses(ConversationContent(r.content)) != [];
            NoteFor(PolicyOf(o).rung0, made, r.malformedTool) ==
            if r.stop == PauseTurnStop then None
            else if r.stop in {MaxTokensStop, ContextWindowExceededStop} then
              (if made then None else Some(TruncationNote()))
            else if r.stop == MalformedToolCallStop then Some(MalformedNote(r.malformedTool.0, r.malformedTool.1))
            else Some(EmptyReplyNote())
  {
    hide TruncationNote, MalformedNote, EmptyReplyNote, HasUsableContent;
  }

  /** A reply that the conversation must not hold. */
  predicate Discards(r: Reply) {
    var o := ClassifyReply(r);
    o.Some? && PolicyOf(o.value).discardPartial
  }

  /** The next reply may join the last message: this one was paused, or left
      the conversation and so the flag alone. */
  predicate MergesAfter(r: Reply, before: bool) {
    r.stop == PauseTurnStop ||
    (before && (Discards(r) || (ClassifyReply(r).Some? && ClassifyReply(r).value.kind == EmptyReply)))
  }

  /** What a reply does to the conversation: nothing at all when it is discarded
      or empty; otherwise its kept content joins it, followed by a result for
      each of its calls, in their order. */
  ghost predicate ReplyTaken(world: World, before: seq<Message>, merge: bool, r: Reply, after: seq<Message>) {
    if Discards(r) || (ClassifyReply(r).Some? && ClassifyReply(r).value.kind == EmptyReply) then after == before
    else Joined(world, before, merge, r, after)
  }

  ghost predicate Joined(world: World, before: seq<Message>, merge: bool, r: Reply, after: seq<Message>) {
    var kept := ConversationContent(r.content);
    exists rs :: ResultIds(rs) == Uses(kept) && AllAnswered(world, Uses(kept), rs) &&
                 TurnJoins(before, merge, kept, ResultBlocks(rs), after)
  }

  /** What a whole turn does to it. */
  ghost predicate TurnEffect(world: World, before: seq<Message>, merge: bool, r: Reply, after: seq<Message>) {
    exists a, b :: Upkeep(before, a) && ReplyTaken(world, a, merge, r, b) && Upkeep(b, after)
  }

  lemma EffectIs(world: World, before: seq<Message>, a: seq<Message>, merge: bool, r: Reply, b: seq<Message>,
                 after: seq<Message>)
    requires Upkeep(before, a) && ReplyTaken(world, a, merge, r, b) && Upkeep(b, after)
    ensures TurnEffect(world, before, merge, r, after)
  {
    hide Upkeep, ReplyTaken;
  }

  /** Each assistant message was there before. */
  predicate NoNewReply(before: seq<Message>, after: seq<Message>) {
    forall m | m in after && m.role.Assistant? :: m in before
  }

  /** Which replies are discarded, by why the provider stopped. */
  lemma DiscardsByStop(r: Reply)
    ensures Discards(r) <==>
            r.stop in {RefusalStop, SafetyStop, IncompleteStop} || (r.stop == MaxTokensStop && r.truncatedTool)
  {
  }

  /** Nothing of a refused or blocked reply is left in the conversation. */
  lemma RefusedLeavesNothing(world: World, before: seq<Message>, merge: bool, r: Reply, after: seq<Message>)
    requires TurnEffect(world, before, merge, r, after) && r.stop in {RefusalStop, SafetyStop}
    ensures NoNewReply(before, after)
  {
    DiscardsByStop(r);
    hide TurnEffect, Discards;
    forall m | m in after && m.role.Assistant? ensures m in before {
      DiscardedLeavesNothing(world, before, merge, r, after, m);
    }
  }

  /** Nothing of a discarded reply is left in the conversation. */
  lemma DiscardedLeavesNothing(world: World, before: seq<Message>, merge: bool, r: Reply, after: seq<Message>,
                               m: Message)
    requires TurnEffect(world, before, merge, r, after) && Discards(r)
    requires m in after && m.role.Assistant?
    ensures m in before
  {
    hide Upkeep;
    var a, b :| Upkeep(before, a) && ReplyTaken(world, a, merge, r, b) && Upkeep(b, after);
    UpkeptReply(b, after, m);
    UpkeptReply(before, a, m);
  }

  lemma UpkeptReply(before: seq<Message>, after: seq<Message>, m: Message)
    requires Upkeep(before, after) && m in after && m.role.Assistant?
    ensures m in before
  {
    var trail :| UpkeepTrail(trail) && trail[0] == before && Last(trail) == after;
    UpkeepAddsNoReply(trail, m);
  }

  lemma EffectAfterUpkeep(world: World, first: seq<Message>, before: seq<Message>, merge: bool, r: Reply,
                          after: seq<Message>)
    requires Upkeep(first, before) && TurnEffect(world, before, merge, r, after)
    ensures TurnEffect(world, first, merge, r, after)
  {
    hide Upkeep, ReplyTaken;
    var a, b :| Upkeep(before, a) && ReplyTaken(world, a, merge, r, b) && Upkeep(b, after);
    MoreUpkeep(first, before, a);
  }

  class AgentRun {
    const world: World
    const writer: JsonlWriter
    const recovery: RecoveryState
    const chain: seq<FallbackEntry>
    const canBuildHops: bool
    const maxTurns: nat
    const noStream: bool
    /** The skills granted to the run, when it has any. */
    const granted: Option<map<string, Granted>>
    /** The skills whose bodies the system prompt holds. */
    const preloaded: seq<LoadedSkill>
    /** Every carried skill could be recorded at launch. */
    ghost var exact: bool

    var tick: nat
    var provider: string
    var model: string
    var limits: Limits
    var messages: seq<Message>
    var loaded: seq<LoadedSkill>
    var turnIdx: nat
    var chainTurn: Option<nat>
    var mergeNext: bool
    var compactionSeq: nat
    var compactedThisTurn: bool
    var lastInputTokens: nat
    var everyTurn: set<(string, string)>

    /** The seed had no two replies in a row. */
    ghost var apart: bool
    /** Every request sent, with the merge flag it was sent under. */
    ghost var requests: seq<(seq<Message>, bool)>
    /** Turns begun. */
    ghost var turns: nat
    /** Turns and provider errors that reached the recovery ladder. */
    ghost var visits: nat
    /** The reply of the turn that ended last. */
    ghost var lastReply: Option<Reply>
    /** The log as the launch left it. */
    ghost var launchLog: seq<Event>
    /** The conversation after each event, once the step that the event records
        is done. */
    ghost var held: seq<seq<Message>>

    /** Lock-step: the log replays to what the run holds. */
    ghost predicate InStep()
      reads `messages, `mergeNext, `loaded, `exact, `apart, `turns, `requests, `launchLog, `held, writer
    {
      && writer.Valid() && WellFormed(messages) && (apart ==> RepliesApart(messages))
      && writer.replayed.Replayed? && writer.replayed.messages == messages && writer.replayed.mergeNext == mergeNext
      && Distinct(Names(loaded)) && (exact ==> writer.skills == loaded)
      && (turns > 0 ==> writer.spoken.sawTurnStart)
      && RepliesFaithfully(world) && launchLog <= writer.events
      && HeldInStep(writer.reader, writer.events, held) && (held != [] ==> Last(held) == messages)
      && forall r | r in requests :: GoodRequest(r.0, r.1, apart)
    }

    /** A fallback of the chain that the policy allows. */
    ghost predicate Offers(p: Policy, target: Target)
    {
      && target != recovery.origin && (exists e | e in chain :: Resolved(e, recovery.origin) == target)
      && (if RungOf(target, recovery.origin) == 1 then p.rung1 else p.rung2)
    }

    /** A client with these limits could be built. */
    ghost predicate CanBuild(built: Limits) {
      canBuildHops && exists t :: world.build(t) == Some(built)
    }

    lemma WasBuilt(built: Limits, at: nat)
      requires (if canBuildHops then world.build(at) else None) == Some(built)
      ensures CanBuild(built)
    {
    }

    /** The action cap is reached, or no eligible fallback is left. */
    ghost predicate NothingLeft(p: Policy)
      reads `provider, `model, recovery
    {
      recovery.actions >= MAX_RECOVERY_ACTIONS ||
      SelectHop(chain, recovery.origin, Target(provider, model), recovery.tried, p.rung1, p.rung2).None?
    }

    lemma Facts()
      requires InStep()
      ensures WellFormed(messages) && Distinct(Names(loaded)) && (apart ==> RepliesApart(messages))
      ensures writer.replayed == Replayed(messages, writer.replayed.accum, mergeNext)
      ensures turns > 0 ==> writer.spoken.sawTurnStart
      ensures RepliesFaithfully(world)
    {
      hide JsonlWriter.Valid, WellFormed, RepliesApart, GoodRequest, RepliesFaithfully;
    }

    /** Lock-step with no turn half written and the log still open. */
    ghost predicate Settled()
      reads `messages, `mergeNext, `loaded, `exact, `apart, `turns, `requests, `launchLog, `held, writer
    {
      InStep() && writer.open && writer.replayed.accum == NOTHING
    }

    /** Lock-step once the completion is written. */
    ghost predicate Closed()
      reads `messages, `mergeNext, `loaded, `exact, `apart, `turns, `requests, `launchLog, `held, writer
    {
      InStep() && !writer.open
    }

    /** Lock-step once the completion is written, and it is not a success. */
    ghost predicate Halted()
      reads `messages, `mergeNext, `loaded, `exact, `apart, `turns, `requests, `launchLog, `held, writer
    {
      && Closed() && writer.events != [] && Last(writer.events).RunComplete? && Last(writer.events).status != Ok
      && (Last(writer.events).status == Aborted ==> IsStopped(world))
    }

    /** The bounds that hold between turns. */
    ghost predicate Counted()
      reads `requests, `turns, `visits, recovery
    {
      |requests| <= CALLS_PER_CLIENT * (turns + recovery.actions) && visits <= recovery.actions
    }

    /** The turn that a rung-0 attempt is charged to. */
    ghost function Charged(): nat
      reads `chainTurn, `turnIdx
    {
      if chainTurn.Some? then chainTurn.value else turnIdx
    }

    /** Rung 0 may still act: the logical turn's budget for the step and the
        run's cap both leave an attempt. */
    ghost predicate HasAttempt(p: Policy)
      reads `chainTurn, `turnIdx, recovery`budgets, recovery`actions
    {
      Used(recovery.budgets, Charged(), p.rung0) < p.budget && recovery.actions < MAX_RECOVERY_ACTIONS
    }

    /** One attempt was made, and nothing else spent: one action, one attempt of
        the charged turn's budget, and the client is the one it was. */
    ghost predicate Attempted(p: Policy, actions: nat, budgets: map<(nat, Rung0), nat>, charged: nat, client: Target)
      reads `provider, `model, recovery`budgets, recovery`actions
    {
      && recovery.actions == actions + 1 && Target(provider, model) == client
      && recovery.budgets == budgets[(charged, p.rung0) := Used(budgets, charged, p.rung0) + 1]
    }

    /** Rung 0 carried the kept turn of `r` on, at the cost of one attempt. */
    ghost predicate WentOn(r: Reply, actions: nat, budgets: map<(nat, Rung0), nat>, charged: nat, client: Target)
      requires ClassifyReply(r).Some?
      reads `messages, `mergeNext, `provider, `model, recovery`budgets, recovery`actions
    {
      var p := PolicyOf(ClassifyReply(r).value);
      && Attempted(p, actions, budgets, charged, client)
      && GoesOn(p.rung0, Uses(ConversationContent(r.content)) != [], r.malformedTool, messages, mergeNext)
    }

    ghost predicate HasAttemptOn(o: Option<Outcome>)
      reads `chainTurn, `turnIdx, recovery`budgets, recovery`actions
    {
      IsTrouble(o) && HasAttempt(PolicyOf(o.value))
    }

    ghost predicate RanOutOn(o: Option<Outcome>, next: Next)
      reads `provider, `model, `chainTurn, recovery
    {
      IsTrouble(o) && next.Fails() && RanOut(o.value, next.loop.outcome.value)
    }

    /** Rung 0 carried a kept turn on, at the cost of one attempt; `next` is none
        where its tool calls do. */
    ghost predicate KeptOnGoing(o: Option<Outcome>, made: bool, malformed: (string, string), next: Option<Next>,
                                actions: nat, budgets: map<(nat, Rung0), nat>, charged: nat, client: Target)
      reads `messages, `mergeNext, `provider, `model, recovery`budgets, recovery`actions
    {
      o.Some? &&
      var p := PolicyOf(o.value);
      && Attempted(p, actions, budgets, charged, client)
      && (next.Some? ==> next.value.Abort? || next.value == Continue || next.value == Finish(Paused))
      && (next.None? || !next.value.Abort? ==> GoesOn(p.rung0, made, malformed, messages, mergeNext))
    }

    /** Whether a compaction ahead of a retry leaves a compacted history: this
        turn's own, or a new one. */
    ghost predicate WouldCompact()
      reads `tick, `limits, `messages, `lastInputTokens, `compactedThisTurn
    {
      compactedThisTurn || CompactsNow()
    }

    /** When it was due, a compaction begun at `at` left its history behind `before`. */
    ghost predicate CompactedIf(due: bool, before: seq<Message>, at: nat)
      reads `messages
    {
      due ==> OpensBehind(messages, before, SummaryAt(world, at + 1))
    }

    ghost predicate CompactsNow()
      reads `tick, `limits, `messages, `lastInputTokens, `compactedThisTurn
    {
      !compactedThisTurn &&
      CompactionRuns(world, limits, messages, if lastInputTokens > 1 then lastInputTokens else 1, tick + 1)
    }

    lemma WouldCompactMeans()
      ensures WouldCompact() <==> compactedThisTurn || CompactsNow()
      ensures CompactsNow() <==>
                && !compactedThisTurn
                && CompactionRuns(world, limits, messages, if lastInputTokens > 1 then lastInputTokens else 1, tick + 1)
    {
      hide CompactionRuns;
    }

    lemma CompactedIfMeans(due: bool, before: seq<Message>, at: nat)
      ensures CompactedIf(due, before, at) <==> (due ==> OpensBehind(messages, before, SummaryAt(world, at + 1)))
    {
      hide OpensBehind, SummaryAt;
    }

    /** No attempt at rung 0 is left. */
    ghost predicate Spent(p: Policy)
      reads `chainTurn, recovery`budgets, recovery`actions
    {
      && chainTurn.Some?
      && (Used(recovery.budgets, chainTurn.value, p.rung0) >= p.budget || recovery.actions >= MAX_RECOVERY_ACTIONS)
    }

    /** A run may fail as `kind` on a reply with this outcome: its rung 0 is
        spent, and so are the fallbacks. A reply still paused when its budget is
        spent fails as incomplete. */
    ghost predicate RanOut(o: Outcome, kind: OutcomeClass)
      reads `provider, `model, `chainTurn, recovery
    {
      var p := PolicyOf(o);
      && (p.rung0 in CONTINUING || p.rung0 == RetryTurn ==> Spent(p))
      && if kind == o.kind then NothingLeft(p)
         else kind == Incomplete && p.rung0 == ContinuePause && NothingLeft(PolicyFor(Incomplete, false))
    }

    /** The run fails rightly on the reply of the last turn, if it does. */
    ghost predicate FailsRightly(next: Next)
      reads `provider, `model, `chainTurn, `lastReply, recovery
    {
      next.Fails() ==>
        lastReply.Some? && RanOutOn(ClassifyReply(lastReply.value), next)
    }

    ghost predicate HasAttemptFor(r: Reply)
      reads `chainTurn, `turnIdx, recovery`budgets, recovery`actions
    {
      HasAttemptOn(ClassifyReply(r))
    }

    /** While rung 0 `had` an attempt for the reply, a kept turn is carried on and
        an incomplete one is sent again, at the cost of that attempt alone. */
    ghost predicate RungZero(r: Reply, next: Next, had: bool, actions: nat, budgets: map<(nat, Rung0), nat>,
                             charged: nat, client: Target)
      reads `messages, `mergeNext, `provider, `model, recovery`budgets, recovery`actions
    {
      had && IsTrouble(ClassifyReply(r)) && (!Discards(r) || r.stop == IncompleteStop) ==>
        && (next == Continue || next == Finish(Paused))
        && (if Discards(r) then Attempted(PolicyOf(ClassifyReply(r).value), actions, budgets, charged, client)
            else WentOn(r, actions, budgets, charged, client))
    }

    /** What a turn that was answered does to the conversation, and how it leaves
        the merge flag. */
    ghost predicate TookReply(before: seq<Message>, merge: bool)
      reads `messages, `mergeNext, `lastReply
    {
      && lastReply.Some? && TurnEffect(world, before, merge, lastReply.value, messages)
      && (mergeNext ==> MergesAfter(lastReply.value, merge))
      && (lastReply.value.stop in {RefusalStop, SafetyStop} ==> NoNewReply(before, messages))
    }

    /** What ending a turn leaves behind: an open log between turns, one turn
        further, or the completion of a run that broke off. `actions` and `turn`
        are those before it. */
    ghost predicate TurnOver(next: Next, actions: nat, turn: nat)
      reads `messages, `mergeNext, `loaded, `exact, `apart, `turns, `requests, `launchLog, `held, `turnIdx, writer,
          recovery
    {
      && recovery.Valid() && recovery.actions >= actions
      && (if next.Abort? then Halted() else Settled() && turnIdx == turn + 1)
      && (next == Finish(Paused) ==> MayPause(world))
    }

    constructor (world: World, reader: SeedReader, provider: string, model: string, limits: Limits,
                 chain: seq<FallbackEntry>, canBuildHops: bool, maxTurns: nat, noStream: bool,
                 granted: Option<map<string, Granted>>, preloaded: seq<LoadedSkill>)
      requires RepliesFaithfully(world)
      ensures fresh(writer) && fresh(recovery)
      ensures Settled() && Counted() && recovery.Valid() && requests == [] && turns == 0 && visits == 0
      ensures writer.events == [] && writer.reader == reader && recovery.actions == 0
      ensures writer.replayed == START && writer.skills == [] && !writer.seeded
      ensures this.maxTurns == maxTurns && this.world == world && this.granted == granted
      ensures messages == [] && loaded == [] && !mergeNext
    {
      this.world, this.chain, this.canBuildHops := world, chain, canBuildHops;
      this.maxTurns, this.noStream := maxTurns, noStream;
      this.granted, this.preloaded, this.exact, this.apart := granted, preloaded, true, true;
      this.provider, this.model, this.limits := provider, model, limits;
      tick, messages, loaded, turnIdx, chainTurn, mergeNext := 0, [], [], 0, None, false;
      compactionSeq, compactedThisTurn, lastInputTokens, everyTurn := 0, false, 0, {};
      requests, turns, visits, lastReply, launchLog, held := [], 0, 0, None, [], [];
      writer := new JsonlWriter(reader);
      recovery := new RecoveryState.WithOrigin(provider, model);
    }

    // ------------------------------------------------------------- one step

    method IsTerminating() returns (b: bool)
      modifies `tick
      ensures b == world.terminating(old(tick)) && tick == old(tick) + 1
      ensures b ==> MayStop(world)
    {
      b := world.terminating(tick);
      tick := tick + 1;
    }

    method IsPaused() returns (b: bool)
      modifies `tick
      ensures b == world.paused(old(tick)) && tick == old(tick) + 1
    {
      b := world.paused(tick);
      tick := tick + 1;
    }

    /** Append one event. What is held for it is the run's own conversation. */
    method Write(ev: Event)
      requires writer.Valid() && writer.open && HeldInStep(writer.reader, writer.events, held)
      requires Legal(writer.reader, writer.replayed, writer.spoken, ev) && (ev.Seed? ==> !writer.seeded)
      requires Conversed(Step(writer.reader, writer.replayed, ev)) == Success(messages)
      modifies `held, writer
      ensures writer.Valid() && HeldInStep(writer.reader, writer.events, held)
      ensures held == old(held) + [messages]
      ensures writer.events == old(writer.events) + [ev]
      ensures writer.replayed == Step(writer.reader, old(writer.replayed), ev)
      ensures writer.spoken == Listen(old(writer.spoken), ev)
      ensures old(writer.spoken.sawTurnStart) ==> writer.spoken.sawTurnStart
      ensures writer.skills == Skills.Note(old(writer.skills), ev)
      ensures writer.open == !ev.RunComplete? && writer.seeded == (old(writer.seeded) || ev.Seed?)
      ensures !ev.SkillLoad? ==> writer.skills == old(writer.skills)
    {
      hide Step, Listen, Legal, Skills.Note, WellFormed, RepliesApart, HeldInStep, Conversed, LegalLog, Heard;
      hide LoadedSkills;
      HeldOneMore(writer.reader, writer.events, held, ev, messages);
      writer.Write(ev);
      held := held + [messages];
    }

    /** Write an event that only informs. */
    method Inform(ev: Event)
      requires InStep() && writer.open && Inert(ev)
      modifies `held, writer
      ensures InStep() && writer.open
      ensures writer.replayed == old(writer.replayed) && writer.spoken == old(writer.spoken)
      ensures writer.skills == old(writer.skills) && writer.seeded == old(writer.seeded)
      ensures writer.events == old(writer.events) + [ev]
    {
      hide JsonlWriter.Valid, HeldInStep, Step, Listen, Legal, Skills.Note, WellFormed, RepliesApart, GoodRequest;
      hide RepliesFaithfully;
      InertIsLegal(writer.reader, writer.replayed, writer.spoken, ev);
      assert !ev.RunComplete? && !ev.Seed?;
      Write(ev);
    }

    /** The same between turns. */
    method Remark(ev: Event)
      requires Settled() && Inert(ev)
      modifies `held, writer
      ensures Settled()
      ensures writer.replayed == old(writer.replayed) && writer.spoken == old(writer.spoken)
      ensures writer.skills == old(writer.skills) && writer.seeded == old(writer.seeded)
      ensures writer.events == old(writer.events) + [ev]
    {
      hide AgentRun.InStep;
      Inform(ev);
    }

    /** Send `note` as a user turn. */
    method Tell(note: string)
      requires Settled()
      requires note == ContinuationNote() ==> !EndsWithNote(messages)
      modifies `messages, `held, writer
      ensures Settled()
      ensures messages == PushUserTurn(old(messages), note) && EndsWithUser(messages)
      ensures writer.events == old(writer.events) + [UserMessage(note)]
    {
      hide JsonlWriter.Valid, ContinuationNote, EndsWithNote, WellFormed, RepliesApart, GoodRequest, RepliesFaithfully;
      hide HeldInStep;
      hide Step, Listen, Legal, Skills.Note;
      PushUserTurnKeeps(messages, note);
      if apart {
        UserKeepsApart(messages, UserText(""), note);
      }
      TakesUserMessage(writer.reader, writer.replayed, writer.spoken, note);
      messages := PushUserTurn(messages, note);
      Write(UserMessage(note));
    }

    /** Write the completion: the last event of the log. */
    method Close(status: RunStatus, error: Option<string>, outcome: Option<OutcomeClass>)
      requires InStep() && writer.open
      requires status == Ok ==> Settled() && EndsWithAssistant(messages) && SpeaksNow(writer.spoken)
      modifies `held, writer
      ensures Closed() && (status == Failed || (status == Aborted && IsStopped(world)) ==> Halted())
      ensures writer.events == old(writer.events) + [RunComplete(status, error, outcome)]
    {
      hide JsonlWriter.Valid, WellFormed, RepliesApart, GoodRequest, RepliesFaithfully, HeldInStep, Step, Listen, Legal;
      hide Skills.Note;
      hide SpeaksNow;
      TakesCompletion(writer.reader, writer.replayed, writer.spoken, RunComplete(status, error, outcome));
      Write(RunComplete(status, error, outcome));
    }

    /** The run's exit once the process is told to stop. */
    method Terminate() returns (error: RunError)
      requires InStep() && writer.open
      requires MayStop(world)
      modifies `held, writer
      ensures Halted() && error == Terminating
      ensures writer.events == old(writer.events) + [RunComplete(Aborted, Some("terminating (SIGTERM)"), None)]
    {
      hide AgentRun.InStep, AgentRun.Halted;
      Close(Aborted, Some("terminating (SIGTERM)"), None);
      error := Terminating;
    }

    // ----------------------------------------------------------- compaction

    /** Write events about loaded skills, and hold what they leave loaded. */
    method RecordSkills(events: seq<Event>, nowLoaded: seq<LoadedSkill>)
      requires InStep() && writer.open && AboutSkills(events)
      requires NoteAll(loaded, events) == nowLoaded && Distinct(Names(nowLoaded))
      modifies `loaded, `held, writer
      ensures InStep() && writer.open && loaded == nowLoaded
      ensures writer.replayed == old(writer.replayed) && writer.spoken == old(writer.spoken)
      ensures writer.events == old(writer.events) + events && writer.seeded == old(writer.seeded)
    {
      hide JsonlWriter.Valid, HeldInStep, Step, Listen, Legal, Skills.Note, WellFormed, RepliesApart, GoodRequest;
      hide RepliesFaithfully;
      for i := 0 to |events|
        invariant writer.Valid() && writer.open && HeldInStep(writer.reader, writer.events, held)
        invariant held != [] ==> Last(held) == messages
        invariant writer.replayed == old(writer.replayed) && writer.spoken == old(writer.spoken)
        invariant writer.skills == NoteAll(old(writer.skills), events[..i])
        invariant writer.events == old(writer.events) + events[..i] && writer.seeded == old(writer.seeded)
        invariant loaded == old(loaded)
      {
        assert events[i] in events;
        assert DropLast(events[..i + 1]) == events[..i];
        TakesSkillEvent(writer.reader, writer.replayed, writer.spoken, events[i]);
        Write(events[i]);
      }
      assert events[..|events|] == events;
      loaded := nowLoaded;
    }

    /** One compaction cycle; false when it was skipped, and then the
        conversation is as it was. What ends it stays. */
    method CompactContext(calibration: nat) returns (ran: bool)
      requires Settled()
      modifies `tick, `messages, `loaded, `held, writer
      ensures Settled() && Upkeep(old(messages), messages)
      ensures !ran ==> messages == old(messages)
      ensures messages != [] <==> old(messages) != []
      ensures messages != [] ==> Last(messages) == Last(old(messages))
      ensures Sendable(old(messages), mergeNext) ==> Sendable(messages, mergeNext)
      ensures ran <==> CompactionRuns(world, limits, old(messages), calibration, old(tick))
      ensures ran ==> OpensBehind(messages, old(messages), SummaryAt(world, old(tick)))
    {
      hide OpensBehind, SummaryAt, CompactionRuns, AgentRun.InStep, AgentRun.Halted, Upkeep, Compacts;
      ran := Compact(calibration);
      CompactionIsUpkeep(old(messages), messages, ran);
    }

    /** Ask for a summary, and build the compacted history from it. */
    method Summarise(calibration: nat) returns (result: CompactionResult)
      requires WellFormed(messages)
      modifies `tick
      ensures result.Done? <==> CompactionRuns(world, limits, messages, calibration, old(tick))
      ensures result.Done? ==>
                && Compacts(messages, result.messages) && result.messages != []
                && NoteCount(result.messages[0].content) == 0
                && OpensBehind(result.messages, messages, SummaryAt(world, old(tick)))
    {
      hide OpensBehind, WellFormed, RepliesApart, Compacts, CompactMessages, NoteCount, Limits.CompactThreshold;
      var threshold := limits.CompactThreshold();
      if threshold.None? {
        return NothingToSummarise;
      }
      var stopping := IsTerminating();
      var answer := if stopping then None else world.summary(tick);
      tick := tick + 1;
      result := CompactMessages(messages, threshold.value, calibration, answer);
      if result.Done? {
        CompactedForm(messages, threshold.value, calibration, answer);
      }
    }

    /** The cycle itself. Skipped, it records nothing but usage. */
    method Compact(calibration: nat) returns (ran: bool)
      requires Settled()
      modifies `tick, `messages, `loaded, `held, writer
      ensures Settled()
      ensures if ran then Compacts(old(messages), messages) else messages == old(messages)
      ensures messages != [] <==> old(messages) != []
      ensures messages != [] ==> Last(messages) == Last(old(messages))
      ensures ran <==> CompactionRuns(world, limits, old(messages), calibration, old(tick))
      ensures ran ==> OpensBehind(messages, old(messages), SummaryAt(world, old(tick)))
    {
      hide OpensBehind, SummaryAt, AgentRun.InStep, AgentRun.Halted, WellFormed, RepliesApart, Compacts, CompactionRuns;
      hide NoteCount;
      Facts();
      var result := Summarise(calibration);
      ran := result.Done?;
      if result.Rejected? || result.Done? {
        Remark(Usage(true));
      }
      if result.Done? {
        ghost var before := messages;
        Replace(result);
        OpensAlike(result.messages, messages, before, SummaryAt(world, old(tick)));
      }
    }

    /** The loaded skills back in the opening message of a compacted history,
        the loaded set after that, and the events that record it. */
    method Reattach(before: seq<Message>, compacted: seq<Message>)
      returns (after: seq<Message>, nowLoaded: seq<LoadedSkill>, events: seq<Event>)
      requires Distinct(Names(loaded))
      requires Compacts(before, compacted) && compacted != [] && NoteCount(compacted[0].content) == 0
      modifies `tick
      ensures Compacts(before, after) && after != [] && NoteCount(after[0].content) == 0
      ensures NoteAll(loaded, events) == nowLoaded && Distinct(Names(nowLoaded)) && AboutSkills(events)
      ensures after[1..] == compacted[1..] && compacted[0].content <= after[0].content
      // The block, when there are skills to put back.
      ensures if granted.Some? && loaded != [] then
                var found := world.disk(old(tick));
                var disk := map name | name in found && name in granted.value :: found[name];
                exists r :: PutsBack(r, loaded, disk, if limits.input.Some? then limits.input.value else 32 * 1024) &&
                            after[0].content == compacted[0].content + [Text(r.block)] && nowLoaded == r.loaded &&
                            events == ReattachEvents(r)
              else after == compacted && nowLoaded == loaded && events == []
    {
      hide Compacts, NoteCount, Chosen, Others, ContinuationNote;
      after, nowLoaded, events := compacted, loaded, [];
      if granted.Some? {
        var found := world.disk(tick);
        tick := tick + 1;
        var disk := map name | name in found && name in granted.value :: found[name];
        var cap := if limits.input.Some? then limits.input.value else 32 * 1024;
        var r := ReattachBlock(loaded, disk, cap);
        if r.Some? {
          FreshIsDistinct(loaded, disk, cap);
          ReattachKeepsCompacts(before, compacted, r.value.block);
          ReattachIsRecorded(loaded, r.value);
          ReattachedNames(loaded, r.value);
          after := compacted[0 := Message(compacted[0].role, compacted[0].content + [Text(r.value.block)])];
          nowLoaded := r.value.loaded;
          events := ReattachEvents(r.value);
        }
      }
    }

    /** Put the compacted history in place and record it. */
    method Replace(result: CompactionResult)
      requires Settled() && result.Done? && result.messages != []
      requires Compacts(messages, result.messages) && NoteCount(result.messages[0].content) == 0
      modifies `tick, `messages, `loaded, `held, writer
      ensures Settled() && Compacts(old(messages), messages)
      ensures messages != [] && old(messages) != [] && Last(messages) == Last(old(messages))
      ensures result.messages[0].content <= messages[0].content
    {
      hide AgentRun.InStep, AgentRun.Halted, Compacts, NoteCount, AboutSkills, WellFormed, RepliesApart;
      Facts();
      var after, nowLoaded, events := Reattach(messages, result.messages);
      CommitCompaction(after, result.summarized);
      RecordSkills(events, nowLoaded);
    }

    method CommitCompaction(after: seq<Message>, summarized: nat)
      requires Settled() && Compacts(messages, after) && after != [] && NoteCount(after[0].content) == 0
      modifies `messages, `held, writer
      ensures Settled() && messages == after
      ensures old(messages) != [] && Last(messages) == Last(old(messages))
      ensures writer.events == old(writer.events) + [Compaction(compactionSeq + 1, summarized, after)]
    {
      hide JsonlWriter.Valid, WellFormed, RepliesApart, GoodRequest, Compacts, NoteCount, RepliesFaithfully, HeldInStep;
      hide Step, Listen;
      hide Legal, Skills.Note;
      CompactsKeeps(messages, after);
      if apart {
        CompactsKeepsApart(messages, after);
      }
      TakesCompaction(writer.reader, writer.replayed, writer.spoken, compactionSeq + 1, summarized, after);
      messages := after;
      Write(Compaction(compactionSeq + 1, summarized, messages));
    }

    // --------------------------------------------------------- a turn's content

    /** Write one block of a kept turn's content. */
    method WriteBlock(boundary: Option<nat>, i: nat, block: ContentBlock)
      requires InStep() && writer.open && turns > 0
      requires !IsAbandoned(boundary, i, block) ==> Recordable(block)
      modifies `held, writer
      ensures InStep() && writer.open
      ensures writer.events == old(writer.events) + EmittedBlock(boundary, i, block)
      ensures writer.replayed == if IsAbandoned(boundary, i, block) then old(writer.replayed)
                                 else old(writer.replayed).(accum := Plus(old(writer.replayed.accum), block))
      ensures SpeaksNow(old(writer.spoken)) ==> SpeaksNow(writer.spoken)
      ensures block.Text? && !Blank(block.text) ==> SpeaksNow(writer.spoken)
    {
      hide JsonlWriter.Valid, WellFormed, RepliesApart, GoodRequest, RepliesFaithfully, HeldInStep, Step, Listen, Legal;
      hide Skills.Note;
      hide SpeaksNow, Blank;
      var events := EmittedBlock(boundary, i, block);
      var ev := events[0];
      assert events == [ev];
      TakesPiece(writer.reader, writer.replayed, writer.spoken, ev);
      Write(ev);
    }

    /** Write the next block of a kept turn's content. */
    method EmitBlock(content: seq<ContentBlock>, boundary: Option<nat>, i: nat, uses: seq<string>)
      returns (more: seq<string>)
      requires InStep() && writer.open && turns > 0
      requires i < |content| && AllRecordable(KeptUpTo(content, boundary, |content|))
      requires uses == Uses(KeptUpTo(content, boundary, i))
      requires writer.replayed.Replayed? && writer.replayed.accum == Accum(KeptUpTo(content, boundary, i), uses, map[])
      requires Speaks(KeptUpTo(content, boundary, i)) ==> SpeaksNow(writer.spoken)
      modifies `held, writer
      ensures InStep() && writer.open
      ensures writer.events == old(writer.events) + EmittedBlock(boundary, i, content[i])
      ensures more == Uses(KeptUpTo(content, boundary, i + 1))
      ensures writer.replayed == old(writer.replayed).(accum := Accum(KeptUpTo(content, boundary, i + 1), more, map[]))
      ensures Speaks(KeptUpTo(content, boundary, i + 1)) ==> SpeaksNow(writer.spoken)
    {
      hide AgentRun.InStep, AgentRun.Halted, SpeaksNow, Speaks, Blank, EmittedBlock, Recordable, Uses, IsAbandoned;
      KeptStep(content, boundary, i);
      hide KeptUpTo;
      WriteBlock(boundary, i, content[i]);
      more := uses;
      if !IsAbandoned(boundary, i, content[i]) && content[i].ToolUse? {
        more := uses + [content[i].id];
      }
    }

    /** Write a kept turn's content, and return the calls to dispatch. */
    method EmitTurnContent(content: seq<ContentBlock>) returns (uses: seq<string>)
      requires Settled() && turns > 0 && Faithful(content)
      modifies `held, writer
      ensures InStep() && writer.open
      ensures writer.events == old(writer.events) + Emitted(content)
      ensures uses == Uses(ConversationContent(content))
      ensures writer.replayed == old(writer.replayed).(accum := Accum(ConversationContent(content), uses, map[]))
      ensures Speaks(ConversationContent(content)) ==> SpeaksNow(writer.spoken)
    {
      hide AgentRun.InStep, AgentRun.Halted, SpeaksNow, Speaks, EmittedBlock, Uses, Distinct, AllRecordable;
      Facts();
      NothingKept();
      uses := [];
      var boundary := FallbackBoundary(content);
      assert KeptUpTo(content, boundary, 0) == [];
      hide KeptUpTo;
      for i := 0 to |content|
        invariant InStep() && writer.open
        invariant writer.events == old(writer.events) + EmittedUpTo(content, boundary, i)
        invariant uses == Uses(KeptUpTo(content, boundary, i))
        invariant writer.replayed == old(writer.replayed).(accum := Accum(KeptUpTo(content, boundary, i), uses, map[]))
        invariant Speaks(KeptUpTo(content, boundary, i)) ==> SpeaksNow(writer.spoken)
      {
        uses := EmitBlock(content, boundary, i, uses);
      }
    }

    /** Write one tool result. */
    method WriteResult(r: CallResult)
      requires InStep() && writer.open
      modifies `held, writer
      ensures InStep() && writer.open
      ensures writer.events == old(writer.events) + [Event.ToolResult(r.id, r.output, r.error)]
      ensures writer.replayed == old(writer.replayed).(accum :=
                old(writer.replayed.accum).(results := old(writer.replayed.accum.results)[r.id := (r.output, r.error)]))
      ensures writer.spoken == old(writer.spoken)
    {
      hide JsonlWriter.Valid, WellFormed, RepliesApart, GoodRequest, RepliesFaithfully, HeldInStep, Step, Listen, Legal;
      hide Skills.Note;
      hide SpeaksNow;
      var ev := Event.ToolResult(r.id, r.output, r.error);
      TakesPiece(writer.reader, writer.replayed, writer.spoken, ev);
      Write(ev);
    }

    /** Dispatch one call; `None` when it stops the run, which is closed then. */
    method DispatchOne(id: string) returns (r: Option<CallResult>, error: RunError)
      requires InStep() && writer.open
      modifies `tick, `loaded, `held, writer
      ensures InStep()
      ensures r.None? ==> Halted()
      ensures r.Some? ==>
                && writer.open && r.value.id == id && writer.spoken == old(writer.spoken)
                && writer.replayed == old(writer.replayed).(accum :=
                     old(writer.replayed.accum).(results :=
                       old(writer.replayed.accum.results)[id := (r.value.output, r.value.error)]))
      ensures r.Some? ==> r == ResultOf(id, world.tool(old(tick)))
      ensures r.Some? ==>
                loaded == if LoadOf(world.tool(old(tick))).Some?
                    then MoveToEnd(old(loaded), LoadOf(world.tool(old(tick))).value)
                          else old(loaded)
    {
      hide MoveToEnd, ClampToolResult, AgentRun.InStep;
      error := Terminating;
      var step := world.tool(tick);
      tick := tick + 1;
      var result: CallResult;
      match step {
        case NotGranted => result := CallResult(id, "", Some("unknown tool"));
        case Denied => result := CallResult(id, "", Some("permission_denied"));
        case OperatorStops =>
          Inform(ToolAudit(id, "denied:operator_stop"));
          Close(Aborted, Some("operator_stop"), None);
          return None, OperatorStop;
        case Ran(output, toolError, _) => result := CallResult(id, ClampToolResult(output), toolError);
        case ToolFailed(message) => result := CallResult(id, "", Some(message));
      }
      if step.Ran? || step.ToolFailed? {
        var stop := IsTerminating();
        if stop {
          error := Terminate();
          return None, error;
        }
      }
      WriteResult(result);
      if step.Ran? && step.error.None? && step.loads.Some? {
        NoteLoad(step.loads.value);
      }
      Inform(ToolAudit(id, if step.NotGranted? then "not_granted" else if step.Denied? then "denied" else "allowed"));
      r := Some(result);
    }

    /** A skill the model loaded moves to the end of the loaded set. */
    method NoteLoad(skill: LoadedSkill)
      requires InStep() && writer.open
      modifies `loaded, `held, writer
      ensures InStep() && writer.open
      ensures writer.replayed == old(writer.replayed) && writer.spoken == old(writer.spoken)
      ensures loaded == MoveToEnd(old(loaded), skill)
    {
      hide JsonlWriter.Valid, WellFormed, RepliesApart, GoodRequest, RepliesFaithfully, MoveToEnd;
      MoveToEndIsDistinct(loaded, skill);
      var events := [SkillLoad(skill.name, skill.contentHash, ViaModel)];
      assert DropLast(events) == [];
      RecordSkills(events, MoveToEnd(loaded, skill));
    }

    /** Dispatch a turn's calls in order. */
    method Dispatch(uses: seq<string>) returns (end: DispatchEnd)
      requires InStep() && writer.open && writer.replayed.accum.results == map[]
      modifies `tick, `loaded, `held, writer
      ensures InStep()
      ensures end.Stopped? ==> Halted()
      ensures end.AllRan? ==>
                && writer.open && ResultIds(end.results) == uses && writer.spoken == old(writer.spoken)
                && writer.replayed ==
                     old(writer.replayed).(accum := old(writer.replayed.accum).(results := ResultMap(end.results)))
                && AllAnswered(world, uses, end.results)
    {
      hide AgentRun.InStep, AgentRun.Halted, ResultOf, AllAnswered, ResultMap, ResultIds;
      Facts();
      NoResults();
      var results: seq<CallResult> := [];
      assert AllAnswered(world, uses[..0], results) by { NothingAnswered(world); }
      for i := 0 to |uses|
        invariant InStep() && writer.open && writer.spoken == old(writer.spoken)
        invariant ResultIds(results) == uses[..i] && AllAnswered(world, uses[..i], results)
        invariant writer.replayed ==
                  old(writer.replayed).(accum := old(writer.replayed.accum).(results := ResultMap(results)))
      {
        ghost var asked := tick;
        var r, error := DispatchOne(uses[i]);
        if r.None? {
          return Stopped(error);
        }
        OneMoreAnswered(world, uses, results, i, r.value, asked);
        results := results + [r.value];
      }
      assert uses[..|uses|] == uses;
      end := AllRan(results);
    }

    /** End a turn. Its content and results join the conversation, unless the
        reply was empty. */
    method EndTurn(kept: seq<ContentBlock>, results: seq<CallResult>, emptyReply: bool)
      requires InStep() && writer.open && Sendable(messages, mergeNext)
      requires writer.replayed.accum == Accum(kept, Uses(kept), ResultMap(results))
      requires AllRecordable(kept) && Distinct(Uses(kept)) && ResultIds(results) == Uses(kept)
      requires emptyReply ==> results == []
      modifies `messages, `mergeNext, `held, writer
      ensures Settled()
      ensures emptyReply ==> messages == old(messages) && mergeNext == old(mergeNext)
      ensures !emptyReply ==>
                && messages == CommitTurn(old(messages), old(mergeNext), kept, results) && !mergeNext
                && writer.spoken == old(writer.spoken)
                && TurnJoins(old(messages), old(mergeNext), kept, ResultBlocks(results), messages)
      ensures messages != []
      ensures writer.events == old(writer.events) + [TurnEnd(turnIdx, emptyReply)]
    {
      hide JsonlWriter.Valid, WellFormed, RepliesApart, GoodRequest, RepliesFaithfully, HeldInStep, Step, Listen, Legal;
      hide Skills.Note;
      hide CommitTurn, FlushInto, Whole, AllRecordable, TurnJoins;
      if emptyReply {
        TakesDiscard(writer.reader, writer.replayed, writer.spoken, turnIdx);
        Write(TurnEnd(turnIdx, true));
      } else {
        TurnIsWhole(kept, results, messages, mergeNext);
        FlushKeeps(messages, writer.replayed.accum, mergeNext);
        CommitJoins(messages, mergeNext, kept, results, apart);
        TakesTurnEnd(writer.reader, writer.replayed, writer.spoken, turnIdx);
        messages := CommitTurn(messages, mergeNext, kept, results);
        mergeNext := false;
        Write(TurnEnd(turnIdx, false));
      }
    }

    /** End a discarded turn: its blocks are shown, and dropped. */
    method EndDiscarded(content: seq<ContentBlock>)
      requires Settled()
      modifies `held, writer
      ensures Settled()
      ensures writer.events == old(writer.events) +
                ShownUpTo(content, FallbackBoundary(content), noStream, |content|) + [TurnEnd(turnIdx, true)]
    {
      hide JsonlWriter.Valid, WellFormed, RepliesApart, GoodRequest, RepliesFaithfully, HeldInStep, Step, Listen, Legal;
      hide Skills.Note;
      var boundary := FallbackBoundary(content);
      for i := 0 to |content|
        invariant InStep() && writer.open
        invariant writer.events == old(writer.events) + ShownUpTo(content, boundary, noStream, i)
      {
        var block := content[i];
        if block.Text? {
          if noStream && block.text != "" {
            Inform(AssistantDelta(block.text));
          }
        } else if !block.ToolResult? {
          var ev := AssistantBlock(block, IsAbandoned(boundary, i, block));
          TakesPiece(writer.reader, writer.replayed, writer.spoken, ev);
          Write(ev);
        }
      }
      TakesDiscard(writer.reader, writer.replayed, writer.spoken, turnIdx);
      Write(TurnEnd(turnIdx, true));
    }

    // ------------------------------------------------------- recovery ladder

    /** Rungs 1 and 2: move the attempt onto the next fallback that builds. A hop
        costs at least one action; without one the conversation is as it was. */
    method FallBack(title: string, p: Policy) returns (end: FallBackEnd)
      requires Settled() && recovery.Valid()
      modifies `tick, `provider, `model, `limits, `messages, `loaded, `compactionSeq, `compactedThisTurn, `held, writer,
               recovery`actions, recovery`tried, recovery`requests
      ensures Settled() && recovery.Valid()
      ensures recovery.actions >= old(recovery.actions)
      ensures end.Hopped? ==> recovery.actions > old(recovery.actions) && (messages != [] ==> EndsWithUser(messages))
      ensures end.LadderEmpty? ==> NothingLeft(p)
      ensures !end.Hopped? || !end.messagesChanged ==> messages == old(messages)
      ensures messages != [] <==> old(messages) != []
      ensures Upkeep(old(messages), messages)
      ensures end.Hopped? ==>
                Target(provider, model) in recovery.tried && Target(provider, model) !in old(recovery.tried)
      ensures !end.Hopped? ==> provider == old(provider) && model == old(model) && limits == old(limits)
      ensures end.Hopped? ==> Offers(p, Target(provider, model)) && CanBuild(limits)
      ensures end.Hopped? && old(EndsWithAssistant(messages)) ==>
                EndsWithText(messages, RecoveryRetryNote(title, provider, model))
      ensures end.Signalled? ==> MayStop(world)
      ensures !end.SkippedOne?
    {
      hide EndsWithText, RecoveryRetryNote, AgentRun.Offers, AgentRun.CanBuild, AgentRun.Settled, Upkeep;
      hide AgentRun.InStep, AgentRun.Halted;
      hide SelectHop;
      while true
        invariant Settled() && recovery.Valid() && messages == old(messages)
        invariant recovery.actions >= old(recovery.actions) && old(recovery.tried) <= recovery.tried
        invariant provider == old(provider) && model == old(model) && limits == old(limits)
        decreases MAX_RECOVERY_ACTIONS - recovery.actions
      {
        end := TryHop(title, p);
        if !end.SkippedOne? {
          return;
        }
      }
    }

    /** Select the next candidate and try to build its client. */
    method PickHop(p: Policy) returns (pick: Pick)
      requires recovery.Valid()
      modifies `tick, recovery`actions, recovery`tried, recovery`requests
      ensures recovery.Valid()
      ensures recovery.actions >= old(recovery.actions)
      ensures pick.Candidate? ==> recovery.actions == old(recovery.actions) + 1
      ensures pick.Candidate? ==> pick.limits == if canBuildHops then world.build(old(tick) + 1) else None
      ensures pick.NoneLeft? ==> NothingLeft(p)
      ensures pick.Candidate? ==> pick.target in recovery.tried && pick.target !in old(recovery.tried)
      ensures pick.Candidate? ==>
                var hop := SelectHop(chain, recovery.origin, Target(provider, model), old(recovery.tried), p.rung1,
                    p.rung2);
                hop.Some? && hop.value.target == pick.target && hop.value.rung == pick.rung
      ensures provider == old(provider) && model == old(model)
      ensures pick.Candidate? ==> Offers(p, pick.target)
      ensures old(recovery.tried) <= recovery.tried
      ensures pick.StopPicking? ==> MayStop(world)
    {
      hide RecoveryState.Valid, SelectHop, Eligible;
      var stop := IsTerminating();
      if stop {
        return StopPicking;
      }
      SelectHopMeaning(chain, recovery.origin, Target(provider, model), recovery.tried, p.rung1, p.rung2);
      var hop := recovery.TakeHop(chain, Target(provider, model), p.rung1, p.rung2);
      if hop.None? {
        return NoneLeft;
      }
      var built := if canBuildHops then world.build(tick) else None;
      tick := tick + 1;
      stop := IsTerminating();
      if stop {
        return StopPicking;
      }
      assert RungOf(hop.value.target, recovery.origin) == hop.value.rung;
      pick := Candidate(if hop.value.rung == 1 then 1 else 2, hop.value.target, built);
    }

    /** Try one candidate, which is skipped when its client does not build. */
    method TryHop(title: string, p: Policy) returns (end: FallBackEnd)
      requires Settled() && recovery.Valid()
      modifies `tick, `provider, `model, `limits, `messages, `loaded, `compactionSeq, `compactedThisTurn, `held, writer,
               recovery`actions, recovery`tried, recovery`requests
      ensures Settled() && recovery.Valid() && Upkeep(old(messages), messages)
      ensures recovery.actions >= old(recovery.actions) && old(recovery.tried) <= recovery.tried
      ensures end.SkippedOne? || end.Hopped? ==> recovery.actions > old(recovery.actions)
      ensures end.LadderEmpty? ==> NothingLeft(p)
      ensures end.Signalled? ==> MayStop(world)
      ensures end.Hopped? ==>
                Target(provider, model) in recovery.tried && Target(provider, model) !in old(recovery.tried)
      ensures end.Hopped? ==> Offers(p, Target(provider, model)) && CanBuild(limits)
      ensures end.Hopped? && old(EndsWithAssistant(messages)) ==>
                EndsWithText(messages, RecoveryRetryNote(title, provider, model))
      ensures end.Hopped? && messages != [] ==> EndsWithUser(messages)
      ensures !end.Hopped? ==>
                messages == old(messages) && provider == old(provider) && model == old(model) && limits == old(limits)
      ensures end.Hopped? && !end.messagesChanged ==> messages == old(messages)
      ensures messages != [] <==> old(messages) != []
    {
      hide EndsWithText, RecoveryRetryNote, AgentRun.Offers, AgentRun.CanBuild, AgentRun.Settled, Upkeep;
      hide AgentRun.InStep, AgentRun.Halted;
      hide SelectHop, RecoveryState.Valid;
      NoUpkeep(messages);
      ghost var start := tick;
      var pick := PickHop(p);
      if pick.StopPicking? {
        end := Signalled;
      } else if pick.NoneLeft? {
        end := LadderEmpty;
      } else if pick.limits.None? {
        Remark(RecoveryTaken(pick.rung, Skipped, false, false));
        end := SkippedOne;
      } else {
        WasBuilt(pick.limits.value, start + 1);
        var changed := HopTo(title, pick.rung, pick.target, pick.limits.value);
        end := Hopped(changed);
      }
    }

    /** Swap the client: every later turn runs on it. */
    method HopTo(title: string, rung: nat, target: Target, hopLimits: Limits) returns (changed: bool)
      requires Settled()
      modifies `tick, `provider, `model, `limits, `messages, `loaded, `compactionSeq, `compactedThisTurn, `held, writer
      ensures Settled()
      ensures provider == target.provider && model == target.model && limits == hopLimits
      ensures messages != [] ==> EndsWithUser(messages)
      ensures !changed ==> messages == old(messages)
      ensures messages != [] <==> old(messages) != []
      ensures if old(EndsWithAssistant(messages)) then EndsWithText(messages, RecoveryRetryNote(title, provider, model))
              else messages != [] ==> Last(messages) == Last(old(messages))
      ensures changed == (old(EndsWithAssistant(messages)) || old(HopCompacts(hopLimits)))
      ensures Upkeep(old(messages), messages)
    {
      hide EndsWithText, RecoveryRetryNote, AgentRun.HopCompacts, AgentRun.Settled, Upkeep, AgentRun.InStep;
      hide AgentRun.Halted;
      provider, model, limits := target.provider, target.model, hopLimits;
      Remark(Notice("model_limits"));
      Remark(RecoveryTaken(rung, FellBack, false, false));
      changed := SettleHop(title, rung);
    }

    /** One compaction cycle, unless the process is told to stop. */
    method CompactUnlessStopping(calibration: nat) returns (ran: bool)
      requires Settled()
      modifies `tick, `messages, `loaded, `held, writer
      ensures Settled() && Upkeep(old(messages), messages)
      ensures !ran ==> messages == old(messages)
      ensures messages != [] <==> old(messages) != []
      ensures messages != [] ==> Last(messages) == Last(old(messages))
      ensures ran <==>
                !world.terminating(old(tick)) &&
                CompactionRuns(world, limits, old(messages), calibration, old(tick) + 1)
      ensures ran ==> OpensBehind(messages, old(messages), SummaryAt(world, old(tick) + 1))
    {
      hide OpensBehind, SummaryAt, AgentRun.Settled, AgentRun.InStep, AgentRun.Halted, Upkeep, CompactionRuns, Sendable;
      NoUpkeep(messages);
      ran := false;
      var stop := IsTerminating();
      if !stop {
        ran := CompactContext(calibration);
      }
    }

    /** Whether a client with these limits compacts the history before its first
        request: its threshold asks for it, this turn has not done it, and it goes
        through. */
    ghost predicate HopCompacts(l: Limits)
      reads `tick, `messages, `lastInputTokens, `compactedThisTurn
    {
      var threshold := l.CompactThreshold();
      && threshold.Some? && lastInputTokens > threshold.value && !compactedThisTurn
      && !world.terminating(tick)
      && CompactionRuns(world, l, messages, if lastInputTokens > 1 then lastInputTokens else 1, tick + 1)
    }

    predicate DueForHop()
      reads `limits, `lastInputTokens, `compactedThisTurn
    {
      var threshold := limits.CompactThreshold();
      threshold.Some? && lastInputTokens > threshold.value && !compactedThisTurn
    }

    /** Number a compaction that a hop called for, and record it. */
    method NumberCompaction(rung: nat)
      requires Settled()
      modifies `compactionSeq, `compactedThisTurn, `held, writer
      ensures Settled() && compactedThisTurn && compactionSeq == old(compactionSeq) + 1
      ensures writer.events == old(writer.events) + [RecoveryTaken(rung, Compacted, false, false)]
    {
      hide AgentRun.InStep;
      compactionSeq, compactedThisTurn := compactionSeq + 1, true;
      Remark(RecoveryTaken(rung, Compacted, false, false));
    }

    /** Compact for a new client, when the last input is over its threshold. */
    method CompactForHop(rung: nat) returns (changed: bool)
      requires Settled()
      modifies `tick, `messages, `loaded, `compactionSeq, `compactedThisTurn, `held, writer
      ensures Settled() && Upkeep(old(messages), messages)
      ensures !changed ==> messages == old(messages)
      ensures messages != [] <==> old(messages) != []
      ensures messages != [] ==> Last(messages) == Last(old(messages))
      ensures changed == old(HopCompacts(limits))
      ensures changed ==> OpensBehind(messages, old(messages), SummaryAt(world, old(tick) + 1))
      ensures compactedThisTurn == (old(compactedThisTurn) || changed)
    {
      hide AgentRun.Settled, AgentRun.InStep, Upkeep, OpensBehind, SummaryAt, CompactionRuns, Limits.CompactThreshold;
      changed := false;
      NoUpkeep(messages);
      if DueForHop() {
        changed := CompactUnlessStopping(if lastInputTokens > 1 then lastInputTokens else 1);
        if changed {
          NumberCompaction(rung);
        }
      }
    }

    /** What a new client needs: a history that fits it, ending in a user turn. */
    method SettleHop(title: string, rung: nat) returns (changed: bool)
      requires Settled()
      modifies `tick, `messages, `loaded, `compactionSeq, `compactedThisTurn, `held, writer
      ensures Settled()
      ensures messages != [] ==> EndsWithUser(messages)
      ensures !changed ==> messages == old(messages)
      ensures messages != [] <==> old(messages) != []
      ensures if old(EndsWithAssistant(messages)) then EndsWithText(messages, RecoveryRetryNote(title, provider, model))
              else messages != [] ==> Last(messages) == Last(old(messages))
      ensures changed == (old(EndsWithAssistant(messages)) || old(HopCompacts(limits)))
      ensures Upkeep(old(messages), messages)
    {
      hide EndsWithText, AgentRun.HopCompacts, AgentRun.InStep, AgentRun.Halted, Upkeep, RecoveryRetryNote;
      hide ContinuationNote, PushUserTurn;
      changed := CompactForHop(rung);
      if EndsWithAssistant(messages) {
        var note := RecoveryRetryNote(title, provider, model);
        OwnNotes(title, provider, model);
        assert OwnNote(note);
        NoteIsUpkeep(messages, note);
        PushEndsWithText(messages, note);
        MoreUpkeep(old(messages), messages, PushUserTurn(messages, note));
        Tell(note);
        changed := true;
      }
    }

    /** The ladder ran out. */
    method GiveUpOn(outcome: OutcomeClass) returns (loop: LoopOutcome)
      requires Settled()
      modifies `turnIdx, `held, writer
      ensures Settled() && turnIdx == old(turnIdx) + 1
      ensures loop == Status(Failed, Some(outcome))
      ensures writer.events == old(writer.events) + [RecoveryTaken(3, GaveUp, false, false)]
    {
      hide AgentRun.InStep, AgentRun.Halted;
      turnIdx := turnIdx + 1;
      Remark(RecoveryTaken(3, GaveUp, false, false));
      loop := Status(Failed, Some(outcome));
    }

    /** The outcome of a turn or an error, in the log. */
    method Announce(kind: OutcomeClass)
      requires InStep() && writer.open && recovery.Valid()
      modifies `held, writer, recovery`outcomes
      ensures InStep() && writer.open && recovery.Valid()
      ensures writer.replayed == old(writer.replayed) && writer.spoken == old(writer.spoken)
      ensures writer.events == old(writer.events) + [OutcomeSeen(turnIdx, kind)] &&
                recovery.outcomes == old(recovery.outcomes) + 1
    {
      hide AgentRun.InStep, AgentRun.Halted;
      var _ := recovery.NextOutcomeId();
      Inform(OutcomeSeen(turnIdx, kind));
    }

    // ------------------------------------------------------- provider calls

    /** Lower the input limit to the one that the provider's error names. */
    method LearnLimit(max: Option<nat>)
      requires Settled()
      modifies `limits, `held, writer
      ensures Settled()
      ensures limits == if max.Some? && max.value > 0 then old(limits).ClampInput(max.value) else old(limits)
    {
      hide AgentRun.Settled, AgentRun.InStep, AgentRun.Halted, Limits.ClampInput;
      if max.Some? && max.value > 0 {
        if limits.ClampInput(max.value) != limits {
          Remark(Notice("model_limits_clamped"));
        }
        limits := limits.ClampInput(max.value);
      }
    }

    /** Learn the real limit from an overflow, and compact. */
    method CompactOnOverflow(overflow: Overflow) returns (ran: bool, stopped: Option<RunError>)
      requires Settled() && Sendable(messages, mergeNext)
      modifies `tick, `limits, `messages, `loaded, `compactionSeq, `compactedThisTurn, `held, writer
      ensures stopped.Some? ==> Halted()
      ensures stopped.None? ==> Settled() && Sendable(messages, mergeNext)
      ensures !ran ==> messages == old(messages)
      ensures limits == (if overflow.max.Some? && overflow.max.value > 0
                         then old(limits).ClampInput(overflow.max.value) else old(limits))
      ensures stopped.None? ==>
                ran == OverflowCompacts(world, overflow, limits, old(messages), lastInputTokens, old(tick))
      ensures ran ==> OpensBehind(messages, old(messages), SummaryAt(world, old(tick) + 1))
      ensures Upkeep(old(messages), messages)
    {
      hide *;
      NoUpkeep(messages);
      stopped, ran := None, false;
      LearnLimit(overflow.max);
      ghost var start := tick;
      var stop := IsTerminating();
      if stop {
        SettledIsOpen();
        var error := Terminate();
        return false, Some(error);
      }
      var measured := if overflow.tokens.Some? then overflow.tokens.value else lastInputTokens;
      OverflowRuns(world, overflow, limits, messages, lastInputTokens, start);
      ran := CompactContext(if measured > 1 then measured else 1);
      if ran {
        compactionSeq, compactedThisTurn := compactionSeq + 1, true;
      }
    }

    lemma SendableIsGood()
      requires Settled() && Sendable(messages, mergeNext)
      ensures GoodRequest(messages, mergeNext, apart)
    {
      hide Sendable;
      Facts();
    }

    /** Drop the oldest exchange of the request, while any is left to drop. */
    method Trim(g: Guards, request: seq<Message>, cap: Option<nat>) returns (step: ErrorStep)
      requires Settled() && g.Within() && GoodRequest(request, mergeNext, apart)
      modifies `held, writer
      ensures Settled()
      ensures step == if g.trims < MAX_TRIMS && CanTrim(request)
                      then Again(g.(trims := g.trims + 1), TrimOldestExchange(request), cap) else Climb(true)
      ensures step.Again? ==> GoodRequest(step.request, mergeNext, apart)
    {
      hide AgentRun.Settled, AgentRun.InStep, AgentRun.Halted, WellFormed, RepliesApart, TrimOldestExchange;
      if g.trims < MAX_TRIMS && CanTrim(request) {
        TrimKeeps(request);
        Remark(Notice("context_trim"));
        step := Again(g.(trims := g.trims + 1), TrimOldestExchange(request), cap);
      } else {
        step := Climb(true);
      }
    }

    /** A context overflow: compact once for this client, then drop the oldest
        exchanges of the request. `Climb` when nothing is left to drop. */
    method OnOverflow(overflow: Overflow, g: Guards, request: seq<Message>, cap: Option<nat>) returns (step: ErrorStep)
      requires Settled() && g.Within() && GoodRequest(request, mergeNext, apart) && Sendable(messages, mergeNext)
      modifies `tick, `limits, `messages, `loaded, `compactionSeq, `compactedThisTurn, `held, writer
      ensures step.GiveUp? ==> Halted()
      ensures !step.GiveUp? ==> Settled() && Sendable(messages, mergeNext)
      ensures step.Again? ==>
                && step.guards.Within() && step.guards.Fuel() < g.Fuel() && step.guards.retries == g.retries
                && GoodRequest(step.request, mergeNext, apart)
      ensures step.Climb? ==> step.overflowed && messages == old(messages)
      ensures !step.GiveUp? ==> step == AfterOverflow(
                !g.overflowCompacted &&
                    OverflowCompacts(world, overflow, limits, old(messages), lastInputTokens, old(tick)),
                g, request, cap, messages)
      ensures Upkeep(old(messages), messages)
    {
      hide *;
      NoUpkeep(messages);
      var compacted := false;
      if !g.overflowCompacted {
        var ran, stopped := CompactOnOverflow(overflow);
        if stopped.Some? {
          return GiveUp(stopped.value);
        }
        compacted := ran;
      }
      OverflowSpends(compacted, g, request, cap, messages);
      if compacted {
        SendableIsGood();
        step := Again(g.(overflowCompacted := true), messages, cap);
      } else {
        TrimAnswers(g, request, cap, messages);
        step := Trim(g.(overflowCompacted := true), request, cap);
      }
    }

    /** What an error calls for, the first that applies: a guard that is spent
        for this client does not apply again. */
    method Adjust(e: ProviderError, g: Guards, request: seq<Message>, cap: Option<nat>)
      returns (step: Option<ErrorStep>)
      requires Settled()
      modifies `limits, `held, writer
      ensures Settled()
      ensures step == Adjusted(e, g, request, cap)
      ensures limits == if e.longContextUnavailable && !g.longContext && !(e.fallbackUnavailable && !g.fallbackNoted)
                        then old(limits).ClampInput(STANDARD_CONTEXT_WINDOW) else old(limits)
    {
      hide AgentRun.Settled, AgentRun.InStep, AgentRun.Halted, Limits.ClampInput;
      if e.fallbackUnavailable && !g.fallbackNoted {
        Remark(Notice("server_side_fallback_disabled"));
        step := Some(Again(g.(fallbackNoted := true), request, cap));
      } else if e.longContextUnavailable && !g.longContext {
        limits := limits.ClampInput(STANDARD_CONTEXT_WINDOW);
        Remark(Notice("model_limits_clamped"));
        step := Some(Again(g.(longContext := true), request, cap));
      } else if e.loweredCap.Some? && !g.capLowered {
        Remark(Notice("model_limits_clamped"));
        step := Some(Again(g.(capLowered := true), request, e.loweredCap));
      } else {
        step := None;
      }
    }

    /** What the client does about an error. */
    method Respond(e: ProviderError, g: Guards, request: seq<Message>, cap: Option<nat>) returns (step: ErrorStep)
      requires Settled() && g.Within() && GoodRequest(request, mergeNext, apart) && Sendable(messages, mergeNext)
      modifies `tick, `limits, `messages, `loaded, `compactionSeq, `compactedThisTurn, `held, writer
      ensures step.GiveUp? ==> Halted()
      ensures !step.GiveUp? ==> Settled() && Sendable(messages, mergeNext)
      ensures step.Again? ==> GoodRequest(step.request, mergeNext, apart)
      ensures !step.GiveUp? ==> Responds(e, g, request, cap, step, old(messages), messages)
      ensures Upkeep(old(messages), messages)
    {
      hide *;
      NoUpkeep(messages);
      AdjustedSpends(e, g, request, cap);
      var adjusted := Adjust(e, g, request, cap);
      if adjusted.Some? {
        step := adjusted.value;
      } else if e.overflow.Some? {
        step := OnOverflow(e.overflow.value, g, request, cap);
      } else {
        step := RetryOrClimb(e, g, request, cap);
      }
      ErrorAnswers(e, false, g, request, cap, messages);
      if !step.GiveUp? {
        RespondsRightly(e, g, request, cap, step, old(messages), messages);
      }
    }

    /** A provider error: adjust and call the same client again, climb the
        ladder, or end the run. An overflow is never retried as it was. */
    method OnError(e: ProviderError, g: Guards, request: seq<Message>, cap: Option<nat>) returns (step: ErrorStep)
      requires Settled() && g.Within() && GoodRequest(request, mergeNext, apart) && Sendable(messages, mergeNext)
      requires e.terminating ==> MayStop(world)
      modifies `tick, `limits, `messages, `loaded, `compactionSeq, `compactedThisTurn, `held, writer
      ensures step.GiveUp? ==> Halted()
      ensures !step.GiveUp? ==> Settled() && Sendable(messages, mergeNext)
      ensures step.Again? ==> GoodRequest(step.request, mergeNext, apart)
      ensures step.Climb? ==> !e.terminating && tick > 0 && !world.terminating(tick - 1)
      ensures !step.GiveUp? ==> Responds(e, g, request, cap, step, old(messages), messages)
      ensures Upkeep(old(messages), messages)
    {
      hide *;
      step := Respond(e, g, request, cap);
      if step.Climb? {
        var stop := IsTerminating();
        if e.terminating || stop {
          SettledIsOpen();
          var error := Terminate();
          step := GiveUp(error);
        }
      }
    }

    /** A transient error is retried; one from before any request ends the run. */
    method RetryOrClimb(e: ProviderError, g: Guards, request: seq<Message>, cap: Option<nat>) returns (step: ErrorStep)
      requires Settled() && g.Within()
      modifies `held, writer
      ensures step.GiveUp? ==> Halted()
      ensures !step.GiveUp? ==> Settled()
      ensures match step
              case Again(guards, again, maxTokens) =>
                && e.retryable && g.retries < MAX_HTTP_RETRIES && guards == g.(retries := g.retries + 1)
                && again == request && maxTokens == cap
              case GiveUp(error) => error == PreflightFailed && e.preflight &&
                  (e.retryable ==> g.retries == MAX_HTTP_RETRIES)
              case Climb(overflowed) => !overflowed && !e.preflight && (e.retryable ==> g.retries == MAX_HTTP_RETRIES)
    {
      hide AgentRun.InStep, AgentRun.Halted;
      if e.retryable && g.retries < MAX_HTTP_RETRIES {
        Remark(Notice("provider_retry"));
        step := Again(g.(retries := g.retries + 1), request, cap);
      } else if e.preflight {
        Close(Failed, Some("preflight"), None);
        step := GiveUp(PreflightFailed);
      } else {
        step := Climb(false);
      }
    }

    /** Rung 3 for a provider error: the run is closed as failed on it. */
    method CloseExhausted(title: string, kind: OutcomeClass) returns (error: RunError)
      requires Settled()
      modifies `held, writer
      ensures Halted() && error == LadderExhausted(kind)
      ensures writer.events == old(writer.events) +
                [RecoveryTaken(3, GaveUp, false, false), RunComplete(Failed, Some(title), Some(kind))]
    {
      hide AgentRun.InStep, AgentRun.Halted;
      Remark(RecoveryTaken(3, GaveUp, false, false));
      Close(Failed, Some(title), Some(kind));
      error := LadderExhausted(kind);
    }

    /** A provider error on the ladder: a hop, or the end of the run. */
    method ClimbOnError(title: string, kind: OutcomeClass) returns (end: ClimbEnd)
      requires Settled() && recovery.Valid() && messages != [] && visits <= recovery.actions
      modifies `tick, `provider, `model, `limits, `messages, `loaded, `compactionSeq, `compactedThisTurn, `chainTurn,
               `visits, `held, writer, recovery
      ensures recovery.Valid() && recovery.actions >= old(recovery.actions)
      ensures end.Moved? ==>
                && Settled() && recovery.actions > old(recovery.actions) && visits <= recovery.actions
                && EndsWithUser(messages) && (!end.messagesChanged ==> messages == old(messages))
      ensures end.Over? ==> Halted() && visits <= recovery.actions + 1
      ensures end == Over(LadderExhausted(kind)) || end.Moved? || end == Over(Terminating)
      ensures Upkeep(old(messages), messages)
      ensures end == Over(LadderExhausted(kind)) ==> NothingLeft(PolicyFor(kind, false))
      ensures end.Moved? ==> chainTurn.None?
      ensures visits == old(visits) + 1
    {
      hide Upkeep, AgentRun.InStep, AgentRun.Halted, RecoveryState.Valid, SelectHop;
      NoUpkeep(messages);
      visits := visits + 1;
      Announce(kind);
      var tried := FallBack(title, PolicyFor(kind, false));
      match tried {
        case Signalled =>
          var error := Terminate();
          end := Over(error);
        case Hopped(changed) =>
          chainTurn := None;
          end := Moved(changed);
        case LadderEmpty =>
          var error := CloseExhausted(title, kind);
          end := Over(error);
      }
    }

    /** A provider error, through the retries for this client and then the
        ladder: the next call, or the end of the run. */
    method Handle(e: ProviderError, g: Guards, request: seq<Message>, cap: Option<nat>) returns (step: ErrorStep)
      requires Settled() && recovery.Valid() && visits <= recovery.actions
      requires e.terminating ==> MayStop(world)
      requires g.Within() && GoodRequest(request, mergeNext, apart) && Sendable(messages, mergeNext)
      modifies `tick, `provider, `model, `limits, `messages, `loaded, `compactionSeq, `compactedThisTurn, `chainTurn,
               `visits, `held, writer, recovery
      ensures recovery.Valid() && recovery.actions >= old(recovery.actions)
      ensures !step.Climb?
      ensures step.GiveUp? ==> Halted() && visits <= recovery.actions + 1
      ensures step.Again? ==> Settled() && visits <= recovery.actions && Sendable(messages, mergeNext)
      ensures step.Again? ==>
                && step.guards.Within() && GoodRequest(step.request, mergeNext, apart)
                && (recovery.actions > old(recovery.actions) || step.guards.Fuel() < g.Fuel())
      ensures step.Again? ==>
                NextCall(e, Attempt(g, request, cap), Attempt(step.guards, step.request, step.maxTokens),
                    recovery.actions > old(recovery.actions), limits.output, old(messages), messages)
      ensures Upkeep(old(messages), messages)
      ensures visits >= old(visits)
    {
      hide Upkeep, AgentRun.InStep, AgentRun.Halted, RecoveryState.Valid, WellFormed, RepliesApart;
      NoUpkeep(messages);
      step := OnError(e, g, request, cap);
      if step.Climb? {
        var climbed := ClimbOnError(e.title,
            ProviderFailure(if step.overflowed then ContextOverflow else e.errorClass));
        if climbed.Over? {
          step := GiveUp(climbed.error);
        } else {
          Facts();
          step := Again(FRESH_GUARDS, if climbed.messagesChanged then messages else request, limits.output);
        }
      }
    }

    ghost method LogRequest(request: seq<Message>)
      requires Settled() && GoodRequest(request, mergeNext, apart)
      modifies `requests
      ensures Settled() && requests == old(requests) + [(request, mergeNext)] && RepliesFaithfully(world)
    {
      hide JsonlWriter.Valid, WellFormed, RepliesApart, GoodRequest, RepliesFaithfully;
      requests := requests + [(request, mergeNext)];
    }

    /** One stream call; `None` when the process is told to stop first, and the
        run is closed then. */
    method CallOnce(request: seq<Message>) returns (step: Option<CallStep>)
      requires Settled() && GoodRequest(request, mergeNext, apart)
      modifies `tick, `requests, `held, writer
      ensures step.None? <==> world.terminating(old(tick))
      ensures step.None? ==> Halted() && requests == old(requests)
      ensures step.Some? ==> step.value == world.call(old(tick) + 1)
      ensures step.Some? ==> Settled() && requests == old(requests) + [(request, mergeNext)]
      ensures step.Some? && step.value.Replied? ==> Faithful(step.value.reply.content)
      ensures step.Some? && step.value.Erred? && step.value.error.terminating ==> MayStop(world)
    {
      hide AgentRun.InStep, AgentRun.Halted, GoodRequest, Faithful;
      var stop := IsTerminating();
      if stop {
        var _ := Terminate();
        step := None;
      } else {
        LogRequest(request);
        step := Some(world.call(tick));
        tick := tick + 1;
      }
    }

    /** One call, and what an error of it leads to. */
    method TryCall(g: Guards, request: seq<Message>, cap: Option<nat>) returns (tried: TriedCall)
      requires Settled() && recovery.Valid() && visits <= recovery.actions
      requires g.Within() && GoodRequest(request, mergeNext, apart) && Sendable(messages, mergeNext)
      modifies `tick, `provider, `model, `limits, `messages, `loaded, `compactionSeq, `compactedThisTurn, `chainTurn,
               `visits, `requests, `held, writer, recovery
      ensures recovery.Valid() && recovery.actions >= old(recovery.actions)
      ensures tried.Aborts() ==> Halted() && visits <= recovery.actions + 1
      ensures !tried.Aborts() ==> Settled() && visits <= recovery.actions && Sendable(messages, mergeNext)
      ensures tried.RepliesWell()
      ensures tried.CallAgain? ==>
                && tried.guards.Within() && GoodRequest(tried.request, mergeNext, apart)
                && (recovery.actions > old(recovery.actions) || tried.guards.Fuel() < g.Fuel())
      // The process was not told to stop: the call was made, and decides.
      ensures world.terminating(old(tick)) ==> tried == Ended(AbortedCall(Terminating)) && requests == old(requests)
      ensures !world.terminating(old(tick)) ==>
                && requests == old(requests) + [(request, mergeNext)]
                && Decides(world.call(old(tick) + 1), Attempt(g, request, cap), tried,
                       recovery.actions > old(recovery.actions), limits.output, old(messages), messages)
      ensures Upkeep(old(messages), messages)
      ensures visits >= old(visits)
    {
      hide AgentRun.Settled, Upkeep, AgentRun.InStep, AgentRun.Halted, RecoveryState.Valid, GoodRequest, Sendable;
      hide Faithful, NextCall;
      NoUpkeep(messages);
      var step := CallOnce(request);
      if step.None? {
        tried := Ended(AbortedCall(Terminating));
      } else if step.value.Replied? {
        tried := Ended(Answered(step.value.reply));
      } else if step.value.PausedMidCall? {
        tried := Ended(PausedCall);
      } else {
        var next := Handle(step.value.error, g, request, cap);
        tried := if next.GiveUp? then Ended(AbortedCall(next.error))
            else CallAgain(next.guards, next.request, next.maxTokens);
      }
    }

    /** Call the provider until it replies, through retries and fallbacks. Each
        client gets at most `CALLS_PER_CLIENT` calls. */
    method CallProvider(first: seq<Message>)
      returns (end: CallEnd, capLowered: bool, cap: Option<nat>, ghost trail: seq<Attempt>)
      requires Settled() && recovery.Valid() && visits <= recovery.actions
      requires GoodRequest(first, mergeNext, apart) && Sendable(messages, mergeNext)
      modifies `tick, `provider, `model, `limits, `messages, `loaded, `compactionSeq, `compactedThisTurn, `chainTurn,
               `visits, `requests, `held, writer, recovery
      ensures recovery.Valid() && recovery.actions >= old(recovery.actions)
      ensures |requests| <= |old(requests)| + CALLS_PER_CLIENT * (1 + recovery.actions - old(recovery.actions))
      ensures SentAt(requests, |old(requests)|, first, mergeNext)
      ensures end.AbortedCall? ==> Halted() && visits <= recovery.actions + 1
      ensures !end.AbortedCall? ==> Settled() && visits <= recovery.actions && Sendable(messages, mergeNext)
      ensures end.Answered? ==> Faithful(end.reply.content)
      ensures requests == old(requests) + RequestsOf(trail, mergeNext)
      ensures CallsFrom(world, trail, Attempt(FRESH_GUARDS, first, old(limits.output)))
      ensures !end.AbortedCall? ==>
                && trail != [] && capLowered == Last(trail).guards.capLowered && cap == Last(trail).cap
                && Came(world, if end.Answered? then Replied(end.reply) else PausedMidCall)
      ensures Upkeep(old(messages), messages)
      ensures visits >= old(visits)
    {
      hide AgentRun.Settled, Upkeep, AgentRun.InStep, AgentRun.Halted, AgentRun.Closed, RecoveryState.Valid;
      hide GoodRequest, Sendable, Faithful, CallsFrom, Decides, RequestsOf, Came, Guards.Fuel, Guards.Within, SentAt;
      NoUpkeep(messages);
      recovery.WithinCap();
      var g, request := FRESH_GUARDS, first;
      cap, trail := limits.output, [];
      ghost var start := Attempt(g, first, cap);
      FirstCall(world, start, mergeNext);
      FuelIsLeft(g);
      assert [] + [start] == [start] && requests + [] == requests;
      while true
        invariant Settled() && recovery.Valid() && visits <= recovery.actions &&
                  recovery.actions >= old(recovery.actions)
        invariant Upkeep(old(messages), messages)
        invariant visits >= old(visits)
        invariant g.Within() && GoodRequest(request, mergeNext, apart) && Sendable(messages, mergeNext)
        invariant |requests| + g.Fuel() + 1 <= |old(requests)| +
                  CALLS_PER_CLIENT * (1 + recovery.actions - old(recovery.actions))
        invariant requests == old(requests) + RequestsOf(trail, mergeNext)
        invariant CallsFrom(world, trail + [Attempt(g, request, cap)], start)
        decreases MAX_RECOVERY_ACTIONS - recovery.actions, g.Fuel()
      {
        capLowered := g.capLowered;
        FuelIsLeft(g);
        ghost var before, spent := messages, recovery.actions;
        ghost var made := Attempt(g, request, cap);
        ghost var at := tick;
        var tried := TryCall(g, request, cap);
        NoLastCall(world, trail, made, start);
        if !world.terminating(at) {
          OneMoreCall(world, trail, made, start, at, tried, recovery.actions > spent, limits.output, before, messages,
              mergeNext);
          trail := trail + [made];
        }
        MoreUpkeep(old(messages), before, messages);
        recovery.WithinCap();
        if tried.Ended? {
          assert requests == old(requests) + RequestsOf(trail, mergeNext);
          CallsAreSent(world, trail, start, old(requests), mergeNext);
          return tried.end, capLowered, cap, trail;
        }
        FuelIsLeft(tried.guards);
        g, request, cap := tried.guards, tried.request, tried.maxTokens;
      }
    }

    // ------------------------------------------------------- a turn's opening

    /** Add a one-time injection to the conversation. */
    method Inject(d: Delivered)
      requires Settled() && Sendable(messages, mergeNext) && d.injection.cadence == Once
      modifies `messages, `held, writer
      ensures Settled() && Sendable(messages, mergeNext) && messages == old(messages) + [d.Sent()]
      ensures writer.events ==
                old(writer.events) + [Injected(d.injection.source, d.injection.kind, Once, d.injection.content)]
    {
      hide JsonlWriter.Valid, WrapFor, WellFormed, RepliesApart, GoodRequest, RepliesFaithfully, HeldInStep, Step;
      hide Listen, Legal;
      hide Skills.Note;
      var i := d.injection;
      WrapIsPlain(i.kind, i.source, i.content);
      PushPlainKeeps(messages, d.Sent());
      if apart {
        UserKeepsApart(messages, d.Sent(), "");
      }
      TakesInjection(writer.reader, writer.replayed, writer.spoken, i.source, i.kind, i.content);
      messages := messages + [d.Sent()];
      Write(Injected(i.source, i.kind, Once, i.content));
    }

    method InjectAll(once: seq<Delivered>)
      requires Settled() && Sendable(messages, mergeNext)
      requires forall d | d in once :: d.injection.cadence == Once
      modifies `messages, `held, writer
      ensures Settled() && Sendable(messages, mergeNext) && messages == old(messages) + SentOf(once)
    {
      hide AgentRun.InStep, AgentRun.Halted, WellFormed, RepliesApart, Sendable, WrapFor;
      for k := 0 to |once|
        invariant Settled() && Sendable(messages, mergeNext)
        invariant messages == old(messages) + SentOf(once[..k])
      {
        assert once[k] in once && DropLast(once[..k + 1]) == once[..k];
        Inject(once[k]);
      }
      assert once[..|once|] == once;
    }

    /** Note the every-turn injections that are new, or changed. */
    method NoteEveryTurn(every: seq<Delivered>)
      requires InStep() && writer.open
      requires forall d | d in every :: d.injection.cadence == EveryTurn
      modifies `everyTurn, `held, writer
      ensures InStep() && writer.open && writer.replayed == old(writer.replayed)
      ensures everyTurn == set d | d in every :: (d.injection.source, d.injection.content)
    {
      hide AgentRun.InStep, AgentRun.Halted;
      var now: set<(string, string)> := {};
      for k := 0 to |every|
        invariant InStep() && writer.open && writer.replayed == old(writer.replayed)
        invariant now == set d | d in every[..k] :: (d.injection.source, d.injection.content)
      {
        var i := every[k].injection;
        assert every[k] in every && every[..k + 1] == every[..k] + [every[k]];
        if (i.source, i.content) !in everyTurn {
          Inform(Injected(i.source, i.kind, EveryTurn, i.content));
        }
        now := now + {(i.source, i.content)};
      }
      assert every[..|every|] == every;
      everyTurn := now;
    }

    method StartTurn()
      requires Settled() && Sendable(messages, mergeNext)
      modifies `turns, `held, writer
      ensures Settled() && turns == old(turns) + 1
      ensures writer.events == old(writer.events) + [TurnStart(turnIdx)]
    {
      hide JsonlWriter.Valid, WellFormed, RepliesApart, GoodRequest, RepliesFaithfully, HeldInStep, Step, Listen, Legal;
      hide Skills.Note;
      hide Sendable;
      TakesTurnStart(writer.reader, writer.replayed, writer.spoken, turnIdx);
      Write(TurnStart(turnIdx));
      turns := turns + 1;
    }

    /** What the collectors give a turn, within the budget. */
    method Assemble() returns (assembly: TurnAssembly)
      modifies `tick
      ensures tick == old(tick) + 1 && assembly == Assembled(world.collect(old(tick)), INJECTION_TOKEN_BUDGET)
      ensures forall d | d in assembly.once :: d.injection.cadence == Once
      ensures forall d | d in assembly.everyTurn :: d.injection.cadence == EveryTurn
      ensures CollectsNothing(world) ==> SentOf(assembly.once) == [] && SentOf(assembly.everyTurn) == []
    {
      var returned := world.collect(tick);
      tick := tick + 1;
      var pipeline := new CollectorPipeline(INJECTION_TOKEN_BUDGET);
      assembly := pipeline.Run(returned);
      CadencesAreApart(ByPriority(Collected(returned)), INJECTION_TOKEN_BUDGET);
      if returned == [] {
        NothingCollected();
      }
    }

    /** The conversation with the one-time injections of the given moment. */
    ghost function Opened(ms: seq<Message>, at: nat): seq<Message> {
      ms + SentOf(Assembled(world.collect(at), INJECTION_TOKEN_BUDGET).once)
    }

    /** Open a turn and build its request: the conversation with the one-time
        injections, then the every-turn ones for this turn only. */
    method BeginTurn() returns (request: seq<Message>)
      requires Settled() && Sendable(messages, mergeNext)
      modifies `tick, `messages, `turns, `everyTurn, `compactedThisTurn, `held, writer
      ensures Settled() && Sendable(messages, mergeNext) && turns == old(turns) + 1
      ensures !compactedThisTurn
      ensures GoodRequest(request, mergeNext, apart)
      ensures messages == Opened(old(messages), old(tick))
      ensures request == messages + SentOf(Assembled(world.collect(old(tick)), INJECTION_TOKEN_BUDGET).everyTurn)
      ensures CollectsNothing(world) ==> request == old(messages)
    {
      hide AgentRun.InStep, AgentRun.Halted, WellFormed, RepliesApart, Sendable, WrapFor, Assembled, SentOf;
      StartTurn();
      compactedThisTurn := false;
      var assembly := Assemble();
      InjectAll(assembly.once);
      NoteEveryTurn(assembly.everyTurn);
      Facts();
      InjectionsKeepRequest(messages, assembly.everyTurn, mergeNext, apart);
      request := messages + SentOf(assembly.everyTurn);
    }

    // --------------------------------------------------- a turn that is dropped

    /** Compact ahead of a retry or a continuation, unless this turn did. */
    method CompactForRung0() returns (compacted: bool, stopped: Option<RunError>)
      requires Settled()
      modifies `tick, `messages, `loaded, `compactionSeq, `held, writer
      ensures stopped.Some? ==> Halted()
      ensures stopped.None? ==>
                && Settled() && (messages != [] <==> old(messages) != [])
                && (messages != [] ==> Last(messages) == Last(old(messages)))
                && (Sendable(old(messages), mergeNext) ==> Sendable(messages, mergeNext))
      ensures Upkeep(old(messages), messages)
      ensures !compacted ==> messages == old(messages)
      ensures stopped.None? ==> compacted == old(WouldCompact())
      ensures stopped.None? ==>
                if old(CompactsNow()) then OpensBehind(messages, old(messages), SummaryAt(world, old(tick) + 1))
                else messages == old(messages)
    {
      hide *;
      WouldCompactMeans();
      NoUpkeep(messages);
      stopped := None;
      if compactedThisTurn {
        return true, None;
      }
      var stop := IsTerminating();
      if stop {
        SettledIsOpen();
        var error := Terminate();
        return false, Some(error);
      }
      compacted := CompactContext(if lastInputTokens > 1 then lastInputTokens else 1);
      if compacted {
        compactionSeq := compactionSeq + 1;
      }
    }

    /** The next turn, unless the run is paused. */
    method MoveOn() returns (next: Next)
      modifies `tick, `turnIdx
      ensures turnIdx == old(turnIdx) + 1 && tick == old(tick) + 1
      ensures next == Finish(Paused) ==> MayPause(world)
      ensures next == if world.paused(old(tick)) then Finish(Paused) else Continue
    {
      turnIdx := turnIdx + 1;
      var paused := IsPaused();
      next := if paused then Finish(Paused) else Continue;
    }

    /** The next turn, as the first of a new logical turn. */
    method StartAfresh() returns (next: Next)
      requires Settled() && recovery.Valid()
      modifies `tick, `chainTurn, `turnIdx
      ensures TurnOver(next, recovery.actions, old(turnIdx)) && chainTurn.None?
      ensures next == if world.paused(old(tick)) then Finish(Paused) else Continue
    {
      hide AgentRun.InStep, AgentRun.Halted, RecoveryState.Valid;
      chainTurn := None;
      next := MoveOn();
    }

    /** How a turn ended, from what it left. */
    lemma IsOver(next: Next, actions: nat, turn: nat)
      requires recovery.Valid() && recovery.actions >= actions
      requires if next.Abort? then Halted() else Settled() && turnIdx == turn + 1
      requires next == Finish(Paused) ==> MayPause(world)
      ensures TurnOver(next, actions, turn)
    {
      hide AgentRun.InStep, AgentRun.Halted, RecoveryState.Valid;
    }

    lemma IsOverSince(next: Next, later: nat, actions: nat, turn: nat)
      requires TurnOver(next, later, turn) && actions <= later
      ensures TurnOver(next, actions, turn)
    {
      hide AgentRun.InStep, AgentRun.Halted, RecoveryState.Valid;
    }

    lemma OverFacts(next: Next, actions: nat, turn: nat)
      requires TurnOver(next, actions, turn)
      ensures recovery.Valid() && recovery.actions >= actions
    {
      hide AgentRun.InStep, AgentRun.Halted, RecoveryState.Valid;
    }

    lemma SettledIsOpen()
      requires Settled()
      ensures InStep() && writer.open
    {
      hide AgentRun.InStep;
    }

    /** Rungs 1 to 3 for a turn's outcome. */
    method ClimbTurn(title: string, kind: OutcomeClass, p: Policy) returns (next: Next)
      requires Settled() && recovery.Valid() && messages != []
      modifies `tick, `provider, `model, `limits, `messages, `loaded, `compactionSeq, `compactedThisTurn, `chainTurn,
               `turnIdx, `held, writer, recovery
      ensures TurnOver(next, old(recovery.actions), old(turnIdx))
      ensures next.Continue? ==> recovery.actions > old(recovery.actions) && EndsWithUser(messages)
      ensures next.NotWell()
      ensures Upkeep(old(messages), messages)
      ensures next == Continue || next == Finish(Paused) ==>
                chainTurn.None? && Offers(p, Target(provider, model))
      ensures (next == Continue || next == Finish(Paused)) && old(EndsWithAssistant(messages)) ==>
                EndsWithText(messages, RecoveryRetryNote(title, provider, model))
      ensures next.Fails() ==> next.loop.outcome == Some(kind) && NothingLeft(p)
      ensures next.Fails() ==> chainTurn == old(chainTurn) && provider == old(provider) && model == old(model)
      ensures recovery.budgets == old(recovery.budgets)
    {
      hide *;
      NoUpkeep(messages);
      var tried := FallBack(title, p);
      match tried {
        case Signalled =>
          SettledIsOpen();
          var error := Terminate();
          next := Abort(error);
          MovingIsNotWell(next);
        case Hopped(_) =>
          ghost var later := recovery.actions;
          next := StartAfresh();
          IsOverSince(next, later, old(recovery.actions), old(turnIdx));
          MovingIsNotWell(next);
          return;
        case LadderEmpty =>
          var loop := GiveUpOn(kind);
          next := Finish(loop);
          FailingIsNotWell(kind);
      }
      IsOver(next, old(recovery.actions), old(turnIdx));
    }

    /** The turn that the attempt's budget is charged to. */
    method ChainStart() returns (chain: nat)
      modifies `chainTurn
      ensures chainTurn == Some(chain) && chain == old(Charged())
    {
      if chainTurn.None? {
        chainTurn := Some(turnIdx);
      }
      chain := chainTurn.value;
    }

    /** Ask for one more attempt at a rung-0 step, charged to the logical turn. */
    method AskRung0(p: Policy) returns (step: Rung0Step)
      requires recovery.Valid()
      modifies `chainTurn, recovery`budgets, recovery`actions
      ensures recovery.Valid() && (step.Act? <==> old(HasAttempt(p)))
      ensures recovery.actions == old(recovery.actions) + (if step.Act? then 1 else 0)
      ensures step.Act? ==>
                Attempted(p, old(recovery.actions), old(recovery.budgets), old(Charged()), Target(provider, model))
      ensures !step.Act? ==> Spent(p)
    {
      hide RecoveryState.Valid;
      recovery.WithinCap();
      var chain := ChainStart();
      step := TakeRung0Step(recovery, chain, p);
    }

    /** Ready a discarded turn to be sent again: as it was, or, for the full
        output cap, once the history is compacted. */
    method ReadyRetry(raiseCap: bool) returns (ready: bool, stopped: Option<RunError>)
      requires Settled() && Sendable(messages, mergeNext)
      modifies `tick, `messages, `loaded, `compactionSeq, `held, writer
      ensures stopped.Some? ==> Halted()
      ensures stopped.None? ==> Settled() && Sendable(messages, mergeNext)
      ensures !raiseCap ==> ready && stopped.None? && messages == old(messages)
      ensures Upkeep(old(messages), messages)
      ensures !ready ==> messages == old(messages)
      ensures raiseCap && stopped.None? ==> ready == old(WouldCompact())
      ensures stopped.None? ==> CompactedIf(raiseCap && old(CompactsNow()), old(messages), old(tick))
    {
      hide OpensBehind, SummaryAt, AgentRun.CompactsNow, CompactionRuns, Upkeep, AgentRun.InStep, AgentRun.Halted;
      hide AgentRun.WouldCompact, AgentRun.Settled, Sendable;
      NoUpkeep(messages);
      ready, stopped := true, None;
      if raiseCap {
        ready, stopped := CompactForRung0();
        if stopped.Some? || !ready {
          return;
        }
        Remark(RecoveryTaken(0, RecoveryAction.Compacted, false, false));
      }
      Remark(RecoveryTaken(0, Retried, false, false));
    }

    /** Rung 0 for a discarded turn. `None` when it cannot be retried. */
    method RetryDiscarded(p: Policy) returns (next: Option<Next>)
      requires Settled() && recovery.Valid() && Sendable(messages, mergeNext)
      modifies `tick, `messages, `loaded, `compactionSeq, `chainTurn, `turnIdx, `held, writer, recovery
      ensures recovery.Valid() && recovery.actions >= old(recovery.actions)
      ensures next.None? ==> Settled() && Sendable(messages, mergeNext) && turnIdx == old(turnIdx)
      ensures next.Some? ==> next.value.Abort? || next.value == Continue || next.value == Finish(Paused)
      ensures next.Some? ==> TurnOver(next.value, old(recovery.actions), old(turnIdx))
      ensures next.Some? && !next.value.Abort? ==>
                Sendable(messages, mergeNext) && recovery.actions > old(recovery.actions)
      ensures Upkeep(old(messages), messages)
      ensures next.None? ==> messages == old(messages)
      ensures next.Some? && !next.value.Abort? ==>
                CompactedIf(p.rung0 == RetryRaisedCap && old(CompactsNow()), old(messages), old(tick))
      ensures old(HasAttempt(p)) && (p.rung0 == RetryRaisedCap ==> old(WouldCompact())) ==>
                next.Some? &&
                (next.value.Abort? ||
                 Attempted(p, old(recovery.actions), old(recovery.budgets), old(Charged()),
                     old(Target(provider, model))))
      ensures p.rung0 != RetryRaisedCap && next.Some? ==> messages == old(messages) && !next.value.Abort?
      ensures p.rung0 != RetryRaisedCap && next.None? ==> Spent(p)
    {
      hide *;
      NoUpkeep(messages);
      var step := AskRung0(p);
      if !step.Act? {
        return None;
      }
      var ready, stopped := ReadyRetry(p.rung0 == RetryRaisedCap);
      if stopped.Some? {
        next := Some(Abort(stopped.value));
        IsOver(next.value, old(recovery.actions), old(turnIdx));
      } else if ready {
        var moved := MoveOn();
        next := Some(moved);
        IsOver(moved, old(recovery.actions), old(turnIdx));
      } else {
        next := None;
      }
    }

    lemma HasAttemptForIs(r: Reply, o: Outcome)
      requires ClassifyReply(r) == Some(o) && IsTrouble(Some(o))
      ensures HasAttemptFor(r) == HasAttempt(PolicyOf(o))
    {
      hide ClassifyReply, IsTrouble, PolicyOf, AgentRun.HasAttempt;
    }

    /** A discarded turn never ends its run well. */
    lemma DiscardedEnds(r: Reply, next: Next)
      requires Discards(r) && next.NotWell()
      ensures EndsRightly(next, if next.Abort? then None else Some(r), messages, writer.spoken)
    {
      DiscardedIsAnError(r);
      hide Succeeds, SpeaksNow, ClassifyReply, PolicyOf;
    }

    lemma WasRungZero(r: Reply, next: Next, had: bool, actions: nat, budgets: map<(nat, Rung0), nat>, charged: nat,
                      client: Target)
      requires Discards(r) && ClassifyReply(r).Some?
      requires had && r.stop == IncompleteStop ==>
                 (next == Continue || next == Finish(Paused)) &&
                 Attempted(PolicyOf(ClassifyReply(r).value), actions, budgets, charged, client)
      ensures RungZero(r, next, had, actions, budgets, charged, client)
    {
      hide Discards, ClassifyReply, PolicyOf, AgentRun.Attempted, AgentRun.WentOn, IsTrouble;
    }

    /** Spent stays spent. */
    twostate lemma StaysSpent(p: Policy)
      requires old(Spent(p)) && chainTurn == old(chainTurn) && recovery.budgets == old(recovery.budgets)
      requires recovery.actions >= old(recovery.actions)
      ensures Spent(p)
    {
    }

    lemma IsRanOut(r: Reply, o: Option<Outcome>, next: Next)
      requires lastReply == Some(r) && ClassifyReply(r) == o && RanOutOn(o, next)
      ensures FailsRightly(next)
    {
      hide ClassifyReply, AgentRun.RanOutOn;
    }

    lemma RanOutOfRetries(o: Outcome)
      requires PolicyOf(o).rung0 !in CONTINUING && (PolicyOf(o).rung0 == RetryTurn ==> Spent(PolicyOf(o)))
      requires NothingLeft(PolicyOf(o))
      ensures RanOut(o, o.kind)
    {
      hide PolicyFor, PolicyOf, AgentRun.NothingLeft, AgentRun.Spent;
    }

    /** Climb the ladder for a discarded turn that rung 0 does nothing more for. */
    method ClimbDiscarded(reply: Reply, o: Outcome) returns (next: Next)
      requires Settled() && recovery.Valid() && messages != []
      requires lastReply == Some(reply) && ClassifyReply(reply) == Some(o) && IsTrouble(Some(o))
      requires PolicyOf(o).rung0 !in CONTINUING && (PolicyOf(o).rung0 == RetryTurn ==> Spent(PolicyOf(o)))
      modifies `tick, `provider, `model, `limits, `messages, `loaded, `compactionSeq, `compactedThisTurn, `chainTurn,
               `turnIdx, `held, writer, recovery
      ensures TurnOver(next, old(recovery.actions), old(turnIdx))
      ensures next.Continue? ==> recovery.actions > old(recovery.actions) && EndsWithUser(messages)
      ensures next.NotWell() && Upkeep(old(messages), messages)
      ensures next.Fails() ==> FailsRightly(next)
    {
      hide *;
      next := ClimbTurn(o.title, o.kind, PolicyOf(o));
      if next.Fails() {
        OverFacts(next, old(recovery.actions), old(turnIdx));
        if PolicyOf(o).rung0 == RetryTurn {
          StaysSpent(PolicyOf(o));
        }
        RanOutOfRetries(o);
        RanOutOnMeans(Some(o), next);
        IsRanOut(reply, Some(o), next);
      }
    }

    /** A discarded turn: retried, moved to a fallback, or given up on. */
    method Discarded(reply: Reply, o: Outcome, capWasLowered: bool) returns (next: Next)
      requires Settled() && recovery.Valid() && Sendable(messages, mergeNext) && visits <= recovery.actions
      requires lastReply == Some(reply) && ClassifyReply(reply) == Some(o) && Discards(reply)
      modifies `tick, `provider, `model, `limits, `messages, `loaded, `compactionSeq, `compactedThisTurn, `chainTurn,
               `turnIdx, `visits, `held, writer, recovery
      ensures TurnOver(next, old(recovery.actions), old(turnIdx)) && visits <= recovery.actions + 1
      ensures next.Continue? ==> Sendable(messages, mergeNext) && visits <= recovery.actions
      ensures EndsRightly(next, if next.Abort? then None else Some(reply), messages, writer.spoken)
      ensures !Succeeds(reply) && Troubled(reply)
      ensures ReplyTaken(world, old(messages), old(mergeNext), reply, old(messages))
      ensures Upkeep(old(messages), messages) && visits == old(visits) + 1
      ensures mergeNext ==> MergesAfter(reply, old(mergeNext))
      ensures !next.Abort? ==>
                RungZero(reply, next, old(HasAttemptFor(reply)), old(recovery.actions), old(recovery.budgets),
                    old(Charged()), old(Target(provider, model)))
      ensures PolicyOf(o).rung0 == RetryTurn && old(HasAttempt(PolicyOf(o))) ==> messages == old(messages)
      ensures PolicyOf(o).rung0 == RetryRaisedCap && capWasLowered && old(WouldCompact()) &&
              old(HasAttempt(PolicyOf(o))) ==>
                next.Abort? ||
                Attempted(PolicyOf(o), old(recovery.actions), old(recovery.budgets), old(Charged()),
                    old(Target(provider, model)))
      ensures next.Fails() ==> FailsRightly(next)
    {
      hide *;
      DiscardedFacts(reply, o);
      DiscardedTakesNothing(world, messages, mergeNext, reply);
      HasAttemptForIs(reply, o);
      visits := visits + 1;
      EndDiscarded(reply.content);
      var p := PolicyOf(o);
      if (p.rung0 == RetryRaisedCap && capWasLowered) || p.rung0 == RetryTurn {
        var retried := RetryDiscarded(p);
        if retried.Some? {
          next := retried.value;
          OverFacts(next, old(recovery.actions), old(turnIdx));
          MovingIsNotWell(next);
          DiscardedEnds(reply, next);
          if !next.Abort? {
            WasRungZero(reply, next, old(HasAttemptFor(reply)), old(recovery.actions), old(recovery.budgets),
                old(Charged()), old(Target(provider, model)));
          }
          return;
        }
      }
      SendableMeans(messages, mergeNext);
      ghost var later := recovery.actions;
      next := ClimbDiscarded(reply, o);
      SendableMeans(messages, mergeNext);
      IsOverSince(next, later, old(recovery.actions), old(turnIdx));
      OverFacts(next, old(recovery.actions), old(turnIdx));
      DiscardedEnds(reply, next);
      if !next.Abort? {
        WasRungZero(reply, next, old(HasAttemptFor(reply)), old(recovery.actions), old(recovery.budgets),
            old(Charged()), old(Target(provider, model)));
      }
    }

    // ------------------------------------------------------ a turn that is kept

    /** Mark the paused message as one that the next reply joins. */
    method ResumePaused()
      requires Settled() && messages != []
      modifies `mergeNext, `turnIdx, `held, writer
      ensures Settled() && Sendable(messages, mergeNext) && turnIdx == old(turnIdx) + 1
      ensures writer.events == old(writer.events) + [RecoveryTaken(0, CarriedOn, true, true)] && mergeNext
    {
      hide JsonlWriter.Valid, WellFormed, RepliesApart, GoodRequest, RepliesFaithfully, HeldInStep, Step, Listen, Legal;
      hide Skills.Note;
      TakesMerge(writer.reader, writer.replayed, writer.spoken, 0, CarriedOn);
      Write(RecoveryTaken(0, CarriedOn, true, true));
      mergeNext := true;
      turnIdx := turnIdx + 1;
    }

    /** Record that the next turn goes on with this turn's text. */
    method GoOnWriting()
      requires Settled()
      modifies `held, writer
      ensures Settled()
      ensures writer.events == old(writer.events) + [RecoveryTaken(0, CarriedOn, false, true)]
    {
      hide JsonlWriter.Valid, WellFormed, RepliesApart, GoodRequest, RepliesFaithfully, HeldInStep, Step, Listen, Legal;
      hide Skills.Note;
      TakesContinuation(writer.reader, writer.replayed, writer.spoken, 0, CarriedOn);
      Write(RecoveryTaken(0, CarriedOn, false, true));
    }

    /** The note that carries a kept turn on; `None` when its tool calls do. */
    method ContinueKept(rung0: Rung0, made: bool, malformed: (string, string))
      returns (note: Option<string>, stopped: Option<RunError>)
      requires Settled() && rung0 in CONTINUING && messages != [] && (rung0 == ContinuePause ==> made)
      modifies `tick, `messages, `loaded, `compactionSeq, `held, writer
      ensures stopped.Some? ==> Halted()
      ensures stopped.None? ==> Settled() && messages != [] && Last(messages) == Last(old(messages))
      ensures note.Some? ==> note.value != ContinuationNote()
      ensures note.None? && stopped.None? ==> made
      ensures Upkeep(old(messages), messages)
      ensures note.Some? ==> OwnNote(note.value)
      ensures stopped.None? ==>
                CompactedIf(rung0 == CompactThenContinue && old(CompactsNow()), old(messages), old(tick))
      ensures rung0 != CompactThenContinue ==> messages == old(messages)
      ensures stopped.None? ==> note == NoteFor(rung0, made, malformed)
    {
      hide OpensBehind, SummaryAt, AgentRun.CompactsNow, AgentRun.WouldCompact, AgentRun.Settled, Upkeep;
      hide AgentRun.InStep, AgentRun.Halted, ContinuationNote;
      hide TruncationNote, MalformedNote;
      hide EmptyReplyNote;
      NoUpkeep(messages);
      note, stopped := None, None;
      if rung0 == CompactThenContinue {
        var compacted, stop := CompactForRung0();
        if stop.Some? {
          return None, stop;
        }
        if compacted {
          Remark(RecoveryTaken(0, RecoveryAction.Compacted, false, false));
        }
      }
      if rung0 == ContinueTruncated || rung0 == CompactThenContinue {
        if made {
          Remark(RecoveryTaken(0, CarriedOn, false, false));
        } else {
          GoOnWriting();
          TruncationIsNotNote();
          note := Some(TruncationNote());
        }
      } else {
        Remark(RecoveryTaken(0, CarriedOn, false, false));
        if rung0 == CorrectMalformed {
          CorrectionIsNotNote(malformed.0, malformed.1);
          note := Some(MalformedNote(malformed.0, malformed.1));
        } else if rung0 == NudgeEmpty {
          NudgeIsNotNote();
          note := Some(EmptyReplyNote());
        }
      }
    }

    /** A kept turn on the ladder: the reply still paused after every pause
        continuation climbs as an incomplete one. */
    method ClimbKept(o: Outcome, p: Policy, overBudget: bool) returns (next: Next)
      requires Settled() && recovery.Valid() && messages != []
      modifies `tick, `provider, `model, `limits, `messages, `loaded, `compactionSeq, `compactedThisTurn, `chainTurn,
               `turnIdx, `held, writer, recovery
      ensures TurnOver(next, old(recovery.actions), old(turnIdx))
      ensures next.Continue? ==> recovery.actions > old(recovery.actions) && EndsWithUser(messages)
      ensures next.NotWell()
      ensures recovery.budgets == old(recovery.budgets)
      ensures next.Fails() ==>
                var pause := overBudget && p.rung0 == ContinuePause;
                && chainTurn == old(chainTurn)
                && next.loop.outcome == Some(if pause then Incomplete else o.kind)
                && NothingLeft(if pause then PolicyFor(Incomplete, false) else p)
      ensures Upkeep(old(messages), messages)
    {
      hide Upkeep, AgentRun.NothingLeft, AgentRun.Offers, AgentRun.InStep, AgentRun.Halted, RecoveryState.Valid;
      hide Decimal;
      NoUpkeep(messages);
      if overBudget && p.rung0 == ContinuePause {
        Announce(Incomplete);
        var title := "incomplete reply \U{C2}\U{B7} still paused after " + Decimal(p.budget) + " continuations";
        next := ClimbTurn(title, Incomplete, PolicyFor(Incomplete, false));
      } else {
        next := ClimbTurn(o.title, o.kind, p);
      }
    }

    method TellAndMoveOn(note: string) returns (next: Next)
      requires Settled() && OwnNote(note) && note != ContinuationNote()
      modifies `tick, `messages, `turnIdx, `held, writer
      ensures messages == PushUserTurn(old(messages), note)
      ensures Settled() && EndsWithText(messages, note) && Upkeep(old(messages), messages)
      ensures next == Finish(Paused) ==> MayPause(world)
      ensures turnIdx == old(turnIdx) + 1 && tick == old(tick) + 1
      ensures next == if world.paused(old(tick)) then Finish(Paused) else Continue
    {
      hide AgentRun.InStep, AgentRun.Halted, EndsWithText, Upkeep, OwnNote, PushUserTurn, ContinuationNote;
      hide EndsWithNote;
      NoteIsUpkeep(messages, note);
      PushEndsWithText(messages, note);
      Tell(note);
      next := MoveOn();
    }

    /** Carry a kept turn on with its rung-0 step. `None` when its tool calls do
        that. */
    method CarryOn(rung0: Rung0, made: bool, malformed: (string, string)) returns (next: Option<Next>)
      requires Settled() && messages != [] && rung0 in CONTINUING
      requires made ==> EndsWithUser(messages)
      modifies `tick, `messages, `mergeNext, `loaded, `compactionSeq, `turnIdx, `held, writer
      ensures next.None? ==> made && Settled() && EndsWithUser(messages) && turnIdx == old(turnIdx)
      ensures next.Some? && next.value.Abort? ==> Halted()
      ensures next.Some? && !next.value.Abort? ==>
                Settled() && turnIdx == old(turnIdx) + 1 && (next.value == Continue || next.value == Finish(Paused))
      ensures next.Some? && next.value.Continue? ==> Sendable(messages, mergeNext)
      ensures next.None? ==> GoesOn(rung0, made, malformed, messages, mergeNext)
      ensures next.Some? && !next.value.Abort? ==> GoesOn(rung0, made, malformed, messages, mergeNext)
      ensures mergeNext == (old(mergeNext) || (rung0 == ContinuePause && !made))
      ensures next.None? || !next.value.Abort? ==>
                CompactedIf(rung0 == CompactThenContinue && old(CompactsNow()), old(messages), old(tick))
      ensures next == Some(Finish(Paused)) ==> MayPause(world)
      ensures Upkeep(old(messages), messages)
    {
      hide *;
      ghost var due := rung0 == CompactThenContinue && CompactsNow();
      StepsGoOn(rung0, made, malformed);
      NoUpkeep(messages);
      if rung0 == ContinuePause && !made {
        ResumePaused();
        CompactedIfMeans(false, old(messages), old(tick));
        return Some(Continue);
      }
      var note, stopped := ContinueKept(rung0, made, malformed);
      if stopped.Some? {
        next := Some(Abort(stopped.value));
      } else if note.Some? {
        ghost var before := messages;
        CompactedIfMeans(due, old(messages), old(tick));
        var moved := TellAndMoveOn(note.value);
        MoreUpkeep(old(messages), before, messages);
        PushedIsSendable(before, note.value, mergeNext);
        PushedTurnJoins(before, note.value);
        if due {
          OpensAlike(before, messages, old(messages), SummaryAt(world, old(tick) + 1));
        }
        CompactedIfMeans(due, old(messages), old(tick));
        next := Some(moved);
      } else {
        SameEnd(messages, old(messages));
        next := None;
      }
    }

    lemma RanOutOfSteps(o: Outcome, pause: bool)
      requires PolicyOf(o).rung0 in CONTINUING && Spent(PolicyOf(o))
      requires NothingLeft(if pause then PolicyFor(Incomplete, false) else PolicyOf(o))
      requires pause ==> PolicyOf(o).rung0 == ContinuePause
      ensures RanOut(o, if pause then Incomplete else o.kind)
    {
      hide AgentRun.NothingLeft, AgentRun.Spent;
    }

    /** Climb the ladder for a kept turn that has no rung-0 attempt left. */
    method ClimbSpent(o: Outcome, overBudget: bool) returns (next: Next)
      requires Settled() && recovery.Valid() && messages != []
      requires PolicyOf(o).rung0 in CONTINUING && Spent(PolicyOf(o))
      modifies `tick, `provider, `model, `limits, `messages, `loaded, `compactionSeq, `compactedThisTurn, `chainTurn,
               `turnIdx, `held, writer, recovery
      ensures TurnOver(next, old(recovery.actions), old(turnIdx))
      ensures next.Continue? ==> recovery.actions > old(recovery.actions) && EndsWithUser(messages)
      ensures next.NotWell() && Upkeep(old(messages), messages)
      ensures next.Fails() ==> RanOut(o, next.loop.outcome.value)
    {
      hide *;
      next := ClimbKept(o, PolicyOf(o), overBudget);
      if next.Fails() {
        OverFacts(next, old(recovery.actions), old(turnIdx));
        StaysSpent(PolicyOf(o));
        RanOutOfSteps(o, overBudget && PolicyOf(o).rung0 == ContinuePause);
      }
    }

    lemma WasKeptOnGoing(o: Outcome, made: bool, malformed: (string, string), next: Option<Next>, actions: nat,
                         budgets: map<(nat, Rung0), nat>, charged: nat, client: Target)
      requires Attempted(PolicyOf(o), actions, budgets, charged, client)
      requires next.Some? ==> next.value.Abort? || next.value == Continue || next.value == Finish(Paused)
      requires next.None? || !next.value.Abort? ==> GoesOn(PolicyOf(o).rung0, made, malformed, messages, mergeNext)
      ensures KeptOnGoing(Some(o), made, malformed, next, actions, budgets, charged, client)
    {
      hide GoesOn, PolicyOf, AgentRun.Attempted;
    }

    lemma OnGoingFacts(o: Option<Outcome>, made: bool, malformed: (string, string), next: Option<Next>, actions: nat,
                       budgets: map<(nat, Rung0), nat>, charged: nat, client: Target)
      requires o.Some? && KeptOnGoing(o, made, malformed, next, actions, budgets, charged, client)
      ensures Attempted(PolicyOf(o.value), actions, budgets, charged, client)
      ensures next.Some? ==> next.value.Abort? || next.value == Continue || next.value == Finish(Paused)
      ensures next.None? || !next.value.Abort? ==>
                GoesOn(PolicyOf(o.value).rung0, made, malformed, messages, mergeNext)
    {
      hide GoesOn, PolicyOf, AgentRun.Attempted;
    }

    lemma HasAttemptOnMeans(o: Option<Outcome>)
      requires IsTrouble(o) ==> o.Some?
      ensures HasAttemptOn(o) == (IsTrouble(o) && HasAttempt(PolicyOf(o.value)))
    {
      hide PolicyOf, IsTrouble, AgentRun.HasAttempt;
    }

    lemma RanOutOnMeans(o: Option<Outcome>, next: Next)
      requires next.Fails() && IsTrouble(o)
      ensures RanOutOn(o, next) == RanOut(o.value, next.loop.outcome.value)
    {
      hide IsTrouble, AgentRun.RanOut;
    }

    /** Recovery of a kept turn. `None` when the tool calls it made carry the
        run on, and so never without any. */
    method Recover(o: Outcome, p: Policy, made: bool, malformed: (string, string)) returns (next: Option<Next>)
      requires Settled() && recovery.Valid() && messages != [] && p.rung0 in CONTINUING
      requires p == PolicyOf(o)
      requires made ==> EndsWithUser(messages)
      modifies `tick, `provider, `model, `limits, `messages, `mergeNext, `loaded, `compactionSeq, `compactedThisTurn,
               `chainTurn, `turnIdx, `held, writer, recovery
      ensures recovery.Valid() && recovery.actions >= old(recovery.actions)
      ensures next.None? ==>
                && made && Settled() && EndsWithUser(messages) && turnIdx == old(turnIdx)
                && recovery.actions > old(recovery.actions)
      ensures next.Some? ==> TurnOver(next.value, old(recovery.actions), old(turnIdx))
      ensures next.Some? && next.value.Continue? ==>
                Sendable(messages, mergeNext) && recovery.actions > old(recovery.actions)
      ensures next.Some? ==> next.value.NotWell()
      ensures Upkeep(old(messages), messages)
      ensures old(HasAttempt(p)) ==>
                KeptOnGoing(Some(o), made, malformed, next, old(recovery.actions), old(recovery.budgets),
                    old(Charged()),
                    old(Target(provider, model)))
      ensures next.None? ==> old(HasAttempt(p))
      ensures next.Some? && next.value.Fails() ==> RanOut(o, next.value.loop.outcome.value)
      ensures mergeNext ==> old(mergeNext) || p.rung0 == ContinuePause
    {
      hide *;
      NoUpkeep(messages);
      var step := AskRung0(p);
      if step.Act? {
        next := CarryOn(p.rung0, made, malformed);
        if next.Some? {
          MovingIsNotWell(next.value);
          IsOver(next.value, old(recovery.actions), old(turnIdx));
        }
        WasKeptOnGoing(o, made, malformed, next, old(recovery.actions), old(recovery.budgets), old(Charged()),
            old(Target(provider, model)));
      } else {
        SendableMeans(messages, mergeNext);
        var climbed := ClimbSpent(o, step.OverBudget?);
        next := Some(climbed);
        OverFacts(climbed, old(recovery.actions), old(turnIdx));
        SendableMeans(messages, mergeNext);
      }
    }

    /** Write a kept turn's content, run its calls, and end it. */
    method CommitReply(reply: Reply, emptyReply: bool) returns (made: bool, stopped: Option<RunError>)
      requires Settled() && Faithful(reply.content) && turns > 0 && Sendable(messages, mergeNext)
      requires emptyReply ==> Uses(ConversationContent(reply.content)) == []
      modifies `tick, `messages, `mergeNext, `loaded, `held, writer
      ensures stopped.Some? ==> Halted()
      ensures stopped.None? ==>
                && Settled() && messages != []
                && (made <==> Uses(ConversationContent(reply.content)) != [])
                && (emptyReply ==> messages == old(messages) && mergeNext == old(mergeNext))
                && (!emptyReply ==> !mergeNext) && (made ==> EndsWithUser(messages))
                && (!emptyReply && !made && Speaks(ConversationContent(reply.content)) ==>
                      EndsWithAssistant(messages) && SpeaksNow(writer.spoken))
                && (!emptyReply ==> Joined(world, old(messages), old(mergeNext), reply, messages))
    {
      hide AgentRun.InStep, AgentRun.Halted, Speaks, SpeaksNow, CommitTurn, Uses, ConversationContent, Emitted;
      hide Distinct, AllRecordable, ResultMap, AllAnswered;
      var uses := EmitTurnContent(reply.content);
      NoResults();
      var end := Dispatch(uses);
      if end.Stopped? {
        return false, Some(end.error);
      }
      var kept := ConversationContent(reply.content);
      CommitEnds(messages, mergeNext, kept, end.results);
      EndTurn(kept, end.results, emptyReply);
      made, stopped := end.results != [], None;
    }

    /** A turn that needs no recovery: the next one follows its tool calls, and
        without any the run is done. */
    method EndWell(made: bool) returns (next: Next)
      requires Settled() && recovery.Valid()
      modifies `tick, `chainTurn, `turnIdx
      ensures TurnOver(next, recovery.actions, old(turnIdx))
      ensures made ==> chainTurn.None?
      ensures next == if !made then Finish(Status(Ok, None)) else if world.paused(old(tick)) then Finish(Paused)
              else Continue
    {
      hide AgentRun.InStep, AgentRun.Halted, RecoveryState.Valid;
      if made {
        next := StartAfresh();
      } else {
        turnIdx := turnIdx + 1;
        next := Finish(Status(Ok, None));
      }
    }

    /** What follows a kept turn: its recovery when it ended badly, the next
        turn when it called tools, and otherwise the end of the run. */
    method AfterKept(o: Option<Outcome>, made: bool, malformed: (string, string)) returns (next: Next)
      requires Settled() && recovery.Valid() && messages != [] && visits <= recovery.actions
      requires made ==> EndsWithUser(messages)
      requires IsTrouble(o) ==> CanCarryOn(o.value)
      modifies `tick, `provider, `model, `limits, `messages, `mergeNext, `loaded, `compactionSeq, `compactedThisTurn,
               `chainTurn, `turnIdx, `visits, `held, writer, recovery
      ensures TurnOver(next, old(recovery.actions), old(turnIdx))
      ensures visits <= recovery.actions + 1
      ensures next.Continue? ==> Sendable(messages, mergeNext) && visits <= recovery.actions
      ensures next == Finish(Status(Ok, None)) <==> !made && !IsTrouble(o)
      ensures next == Finish(Status(Ok, None)) ==> messages == old(messages) && writer.spoken == old(writer.spoken)
      ensures next.NotWell() || next == Finish(Status(Ok, None))
      ensures Upkeep(old(messages), messages)
      ensures visits == old(visits) + (if IsTrouble(o) then 1 else 0)
      ensures made && !IsTrouble(o) ==>
                chainTurn.None? && next == if world.paused(old(tick)) then Finish(Paused) else Continue
      ensures old(HasAttemptOn(o)) ==>
                KeptOnGoing(o, made, malformed, Some(next), old(recovery.actions), old(recovery.budgets),
                    old(Charged()), old(Target(provider, model)))
      ensures next.Fails() ==> RanOutOn(o, next)
      ensures mergeNext && !old(mergeNext) ==> Pauses(o)
    {
      hide *;
      TroubleMeans(o);
      NoUpkeep(messages);
      HasAttemptOnMeans(o);
      if IsTrouble(o) {
        visits := visits + 1;
        var p := PolicyOf(o.value);
        CanCarryOnMeans(o.value);
        var recovered := Recover(o.value, p, made, malformed);
        if recovered.Some? {
          next := recovered.value;
          OverFacts(next, old(recovery.actions), old(turnIdx));
          NotWellMeans(next);
          if next.Fails() {
            RanOutOnMeans(o, next);
          }
          return;
        }
        OnGoingFacts(o, made, malformed, None, old(recovery.actions), old(recovery.budgets), old(Charged()),
            old(Target(provider, model)));
      }
      ghost var later := recovery.actions;
      SendableMeans(messages, mergeNext);
      next := EndWell(made);
      IsOverSince(next, later, old(recovery.actions), old(turnIdx));
      OverFacts(next, old(recovery.actions), old(turnIdx));
      NotWellMeans(next);
      if IsTrouble(o) {
        WasKeptOnGoing(o.value, made, malformed, Some(next), old(recovery.actions), old(recovery.budgets),
            old(Charged()), old(Target(provider, model)));
      }
    }

    lemma WentOnIs(r: Reply, next: Next, had: bool, actions: nat, budgets: map<(nat, Rung0), nat>, charged: nat,
                   client: Target)
      requires !Discards(r)
      requires IsTrouble(ClassifyReply(r)) && had ==>
                 var p := PolicyOf(ClassifyReply(r).value);
                 && Attempted(p, actions, budgets, charged, client) && (next == Continue || next == Finish(Paused))
                 && GoesOn(p.rung0, Uses(ConversationContent(r.content)) != [], r.malformedTool, messages, mergeNext)
      ensures RungZero(r, next, had, actions, budgets, charged, client)
    {
      hide Discards, ClassifyReply, PolicyOf, GoesOn, AgentRun.Attempted, IsTrouble;
    }

    /** A turn whose content is kept. */
    method Kept(reply: Reply, o: Option<Outcome>) returns (next: Next)
      requires Settled() && recovery.Valid() && Sendable(messages, mergeNext) && visits <= recovery.actions
      requires lastReply == Some(reply)
      requires Faithful(reply.content) && turns > 0 && o == ClassifyReply(reply)
      requires o.Some? ==> !PolicyOf(o.value).discardPartial
      modifies `tick, `provider, `model, `limits, `messages, `mergeNext, `loaded, `compactionSeq, `compactedThisTurn,
               `chainTurn, `turnIdx, `visits, `held, writer, recovery
      ensures TurnOver(next, old(recovery.actions), old(turnIdx))
      ensures visits <= recovery.actions + 1
      ensures next.Continue? ==> Sendable(messages, mergeNext) && visits <= recovery.actions
      ensures EndsRightly(next, if next.Abort? then None else Some(reply), messages, writer.spoken)
      ensures !next.Abort? && Succeeds(reply) ==> next == Finish(Status(Ok, None))
      ensures !next.Abort? ==>
                exists b :: ReplyTaken(world, old(messages), old(mergeNext), reply, b) && Upkeep(b, messages)
      ensures !next.Abort? ==> visits == old(visits) + (if Troubled(reply) then 1 else 0)
      ensures !next.Abort? ==>
                RungZero(reply, next, old(HasAttemptFor(reply)), old(recovery.actions), old(recovery.budgets),
                    old(Charged()), old(Target(provider, model)))
      ensures next.Fails() ==> FailsRightly(next)
      ensures !next.Abort? && mergeNext ==> MergesAfter(reply, old(mergeNext))
    {
      hide *;
      DiscardsMeans(reply);
      var emptyReply := o.Some? && o.value.kind == EmptyReply;
      KeptFacts(reply);
      TroubleMeans(o);
      if IsTrouble(o) {
        HasAttemptForIs(reply, o.value);
        HasAttemptOnMeans(o);
      }
      SendableMeans(messages, mergeNext);
      var made, stopped := CommitReply(reply, emptyReply);
      if stopped.Some? {
        next := Abort(stopped.value);
        IsOver(next, old(recovery.actions), old(turnIdx));
        MovingIsNotWell(next);
        AbortEndsRightly(stopped.value, messages, writer.spoken);
        return;
      }
      KeptIsTaken(world, old(messages), old(mergeNext), reply, messages);
      next := AfterKept(o, made, reply.malformedTool);
      if IsTrouble(o) && old(HasAttempt(PolicyOf(o.value))) {
        OnGoingFacts(o, made, reply.malformedTool, Some(next), old(recovery.actions),
            old(recovery.budgets), old(Charged()), old(Target(provider, model)));
      }
      if !next.Abort? {
        KeptEnds(reply, next, messages, writer.spoken);
        WentOnIs(reply, next, old(HasAttemptFor(reply)), old(recovery.actions), old(recovery.budgets),
            old(Charged()), old(Target(provider, model)));
        KeptMerges(reply, old(mergeNext), mergeNext);
        if next.Fails() {
          IsRanOut(reply, o, next);
        }
      } else {
        MovingIsNotWell(next);
        AbortEndsRightly(next.error, messages, writer.spoken);
      }
    }

    /** What is recorded of a reply ahead of its content. */
    method NoteReply(reply: Reply, o: Option<Outcome>)
      requires Settled() && recovery.Valid()
      modifies `lastInputTokens, `lastReply, `held, writer, recovery`outcomes
      ensures Settled() && recovery.Valid() && lastReply == Some(reply) && lastInputTokens == reply.inputTokens
      ensures writer.events == old(writer.events) + NotesOn(turnIdx, reply, o)
    {
      hide AgentRun.InStep, AgentRun.Halted, RecoveryState.Valid;
      lastReply := Some(reply);
      Inform(Usage(false));
      lastInputTokens := reply.inputTokens;
      if reply.servedBy.Some? {
        Announce(Refusal);
        Inform(RecoveryTaken(1, ServedByFallback, false, false));
      }
      if o.Some? {
        Announce(o.value.kind);
      }
    }

    /** Compact once the input is over the threshold. When the process stops
        here, a kept turn's content is still written. */
    method CompactAhead(reply: Reply, discard: bool) returns (stopped: Option<RunError>)
      requires Settled() && Sendable(messages, mergeNext) && turns > 0 && Faithful(reply.content)
      modifies `tick, `messages, `loaded, `compactionSeq, `compactedThisTurn, `held, writer
      ensures stopped.Some? ==> Halted()
      ensures stopped.None? ==> Settled() && Sendable(messages, mergeNext)
      ensures Upkeep(old(messages), messages)
      ensures stopped.None? ==>
                var over := limits.CompactThreshold().Some? && reply.inputTokens > limits.CompactThreshold().value;
                var runs := CompactionRuns(world, limits, old(messages), reply.inputTokens, old(tick) + 1);
                && compactedThisTurn == (old(compactedThisTurn) || (over && runs))
                && (if over && runs then OpensBehind(messages, old(messages), SummaryAt(world, old(tick) + 1))
                    else messages == old(messages))
    {
      hide OpensBehind, SummaryAt, CompactionRuns, Sendable, Limits.CompactThreshold, Upkeep, AgentRun.InStep;
      hide AgentRun.Halted, Compacts;
      hide Faithful, Emitted, ConversationContent, Uses, Speaks, SpeaksNow;
      NoUpkeep(messages);
      stopped := None;
      var threshold := limits.CompactThreshold();
      if threshold.Some? && reply.inputTokens > threshold.value {
        var stop := IsTerminating();
        if stop {
          if !discard {
            var _ := EmitTurnContent(reply.content);
          }
          var error := Terminate();
          return Some(error);
        }
        var ran := CompactContext(reply.inputTokens);
        if ran {
          compactionSeq, compactedThisTurn := compactionSeq + 1, true;
        }
      }
    }

    lemma TookIs(before: seq<Message>, a: seq<Message>, merge: bool, r: Reply, b: seq<Message>)
      requires lastReply == Some(r) && Upkeep(before, a) && ReplyTaken(world, a, merge, r, b) && Upkeep(b, messages)
      requires mergeNext ==> MergesAfter(r, merge)
      ensures TookReply(before, merge)
    {
      hide Upkeep, ReplyTaken, TurnEffect, NoNewReply, MergesAfter;
      EffectIs(world, before, a, merge, r, b, messages);
      if r.stop in {RefusalStop, SafetyStop} {
        RefusedLeavesNothing(world, before, merge, r, messages);
      }
    }

    /** The rest of a turn once the provider has replied. */
    method Answer(reply: Reply, capWasLowered: bool) returns (next: Next)
      requires Settled() && recovery.Valid() && Sendable(messages, mergeNext) && visits <= recovery.actions
      requires Faithful(reply.content) && turns > 0
      modifies `tick, `provider, `model, `limits, `messages, `mergeNext, `loaded, `compactionSeq, `compactedThisTurn,
               `chainTurn, `turnIdx, `visits, `lastInputTokens, `lastReply, `held, writer, recovery
      ensures TurnOver(next, old(recovery.actions), old(turnIdx))
      ensures visits <= recovery.actions + 1
      ensures !next.Abort? ==> lastReply == Some(reply)
      ensures next.Continue? ==> Sendable(messages, mergeNext) && visits <= recovery.actions
      ensures EndsRightly(next, if next.Abort? then None else Some(reply), messages, writer.spoken)
      ensures !next.Abort? && Succeeds(reply) ==> next == Finish(Status(Ok, None))
      ensures !next.Abort? ==> visits == old(visits) + (if Troubled(reply) then 1 else 0)
      ensures !next.Abort? ==>
                RungZero(reply, next, old(HasAttemptFor(reply)), old(recovery.actions), old(recovery.budgets),
                    old(Charged()), old(Target(provider, model)))
      ensures next.Fails() ==> FailsRightly(next)
      ensures !next.Abort? ==> TookReply(old(messages), old(mergeNext))
    {
      hide *;
      var o := ClassifyReply(reply);
      var discard := o.Some? && PolicyOf(o.value).discardPartial;
      DiscardsMeans(reply);
      NoteReply(reply, o);
      var stopped := CompactAhead(reply, discard);
      if stopped.Some? {
        next := Abort(stopped.value);
        IsOver(next, old(recovery.actions), old(turnIdx));
        MovingIsNotWell(next);
        AbortEndsRightly(stopped.value, messages, writer.spoken);
      } else {
        ghost var a := messages;
        if discard {
          next := Discarded(reply, o.value, capWasLowered);
        } else {
          next := Kept(reply, o);
        }
        if !next.Abort? {
          ghost var b :| ReplyTaken(world, a, old(mergeNext), reply, b) && Upkeep(b, messages);
          TookIs(old(messages), a, old(mergeNext), reply, b);
        }
      }
    }

    lemma TookAfterUpkeep(first: seq<Message>, before: seq<Message>, merge: bool)
      requires Upkeep(first, before) && TookReply(before, merge)
      ensures TookReply(first, merge)
    {
      hide Upkeep, TurnEffect, NoNewReply, MergesAfter;
      var r := lastReply.value;
      EffectAfterUpkeep(world, first, before, merge, r, messages);
      if r.stop in {RefusalStop, SafetyStop} {
        RefusedLeavesNothing(world, first, merge, r, messages);
      }
    }

    /** One turn. */
    method Turn() returns (next: Next)
      requires Settled() && Counted() && recovery.Valid() && Sendable(messages, mergeNext)
      modifies `tick, `provider, `model, `limits, `messages, `mergeNext, `loaded, `compactionSeq, `compactedThisTurn,
               `chainTurn, `turnIdx, `visits, `lastInputTokens, `lastReply, `everyTurn, `turns, `requests, `held,
               writer, recovery
      ensures recovery.Valid() && turns == old(turns) + 1
      ensures |requests| <= CALLS_PER_CLIENT * (turns + recovery.actions) && visits <= recovery.actions + 1
      ensures old(requests) <= requests && (!next.Abort? ==> |requests| > |old(requests)|)
      ensures CollectsNothing(world) ==> SentAt(requests, |old(requests)|, old(messages), old(mergeNext))
      ensures if next.Abort? then Halted() else Settled()
      ensures next.Continue? ==> Counted() && Sendable(messages, mergeNext) && turnIdx == old(turnIdx) + 1
      ensures EndsRightly(next, lastReply, messages, writer.spoken)
      // Answered, or paused before a reply came.
      ensures !next.Abort? && turnIdx != old(turnIdx) ==>
                && turnIdx == old(turnIdx) + 1 && TookReply(Opened(old(messages), old(tick)), old(mergeNext))
                && visits >= old(visits) + (if Troubled(lastReply.value) then 1 else 0)
      ensures !next.Abort? && turnIdx != old(turnIdx) ==> Came(world, Replied(lastReply.value))
      ensures next == Finish(Paused) ==> MayPause(world)
      ensures next.Fails() ==> FailsRightly(next)
      ensures !next.Abort? && turnIdx == old(turnIdx) ==>
                && next == Finish(Paused) && lastReply == old(lastReply)
                && Upkeep(Opened(old(messages), old(tick)), messages)
    {
      hide Upkeep, AgentRun.TookReply, AgentRun.RungZero, AgentRun.FailsRightly, AgentRun.InStep, AgentRun.Halted;
      hide RecoveryState.Valid, Sendable, GoodRequest, Faithful;
      hide SpeaksNow, Succeeds, Assembled, SentOf;
      var request := BeginTurn();
      ghost var asOpened := messages;
      var end, capLowered, cap, trail := CallProvider(request);
      match end {
        case PausedCall => next := Finish(Paused);
        case AbortedCall(error) => next := Abort(error);
        case Answered(reply) =>
          var wasLowered := capLowered && limits.output.Some? && cap.Some? && limits.output.value > cap.value;
          ghost var before := messages;
          next := Answer(reply, wasLowered);
          if !next.Abort? {
            TookAfterUpkeep(asOpened, before, old(mergeNext));
          }
      }
    }

    // ------------------------------------------------------------- the run

    /** Seed one carried entry: its fate decides whether it is recorded. */
    method SeedOne(carried: seq<LoadedSkill>, at: nat, missing: set<string>)
      requires InStep() && writer.open && !exact && at < |carried|
      requires loaded == SeededSet(carried, at, Grants(), missing)
      requires writer.skills == NoteAll([], SeedEvents(carried, at, Grants(), missing))
      modifies `loaded, `held, writer
      ensures InStep() && writer.open
      ensures writer.replayed == old(writer.replayed) && writer.seeded == old(writer.seeded)
      ensures loaded == SeededSet(carried, at + 1, Grants(), missing)
      ensures writer.skills == NoteAll([], SeedEvents(carried, at + 1, Grants(), missing))
    {
      hide JsonlWriter.Valid, WellFormed, RepliesApart, GoodRequest, RepliesFaithfully, HeldInStep, Step, Listen, Legal;
      hide Skills.Note;
      hide FateOf, HeldLater, Names;
      SeededSetIsDistinct(carried, at + 1, Grants(), missing);
      ghost var before := SeedEvents(carried, at, Grants(), missing);
      var fate := FateOf(carried, at, Grants(), missing);
      assert before + [] == before && loaded + [] == loaded;
      var ev := Notice("skill_missing");
      if fate == Record {
        ev := SkillLoad(carried[at].name, carried[at].contentHash, ViaContinuation);
        loaded := loaded + [carried[at]];
      } else if fate == Hold {
        loaded := loaded + [carried[at]];
        return;
      } else if HeldLater(carried, at) || carried[at].name in Grants() {
        return;
      }
      assert DropLast(before + [ev]) == before;
      TakesSkillEvent(writer.reader, writer.replayed, writer.spoken, ev);
      Write(ev);
    }

    /** Note whether the seed keeps replies apart. */
    ghost method NoteApart(seed: seq<Message>)
      requires Settled() && messages == [] && requests == []
      modifies `apart
      ensures Settled() && apart == RepliesApart(seed)
    {
      hide JsonlWriter.Valid, WellFormed, GoodRequest, RepliesFaithfully, HeldInStep;
      NoRepliesApart();
      apart := RepliesApart(seed);
    }

    ghost method SetExact(whole: bool)
      requires InStep() && (whole ==> writer.skills == loaded)
      modifies `exact
      ensures InStep() && exact == whole
    {
      hide JsonlWriter.Valid, WellFormed, RepliesApart, GoodRequest, RepliesFaithfully, HeldInStep;
      exact := whole;
    }

    /** The carried skills that this run grants, recorded as loaded. One that
        only a missing frozen skill stands for stays in the set unrecorded, and
        then the log no longer holds the whole set. */
    method SeedLoadedSkills(carried: seq<LoadedSkill>, missing: set<string>)
      requires InStep() && writer.open && loaded == [] && writer.skills == []
      modifies `loaded, `exact, `held, writer
      ensures InStep() && writer.open
      ensures writer.replayed == old(writer.replayed) && writer.seeded == old(writer.seeded)
      ensures loaded == SeededSet(carried, |carried|, Grants(), missing)
      ensures writer.skills == loaded <==> NoneOnlyMissing(carried, Grants(), missing)
      ensures exact <==> NoneOnlyMissing(carried, Grants(), missing)
    {
      hide AgentRun.InStep, NoneOnlyMissing, SeededSet, SeedEvents, NoteAll;
      SeedingStarts(carried, Grants(), missing);
      SetExact(false);
      for at := 0 to |carried|
        invariant InStep() && writer.open && !exact
        invariant writer.replayed == old(writer.replayed) && writer.seeded == old(writer.seeded)
        invariant loaded == SeededSet(carried, at, Grants(), missing)
        invariant writer.skills == NoteAll([], SeedEvents(carried, at, Grants(), missing))
      {
        SeedOne(carried, at, missing);
      }
      SeedingAgrees(carried, Grants(), missing);
      SetExact(NoneOnlyMissing(carried, Grants(), missing));
    }

    function Grants(): map<string, Granted> {
      if granted.Some? then granted.value else map[]
    }

    /** The log's opening: what the run is given ahead of the conversation. */
    method WritePrologue(turn: UserTurn)
      requires Settled() && loaded == [] && writer.skills == [] && !writer.seeded && writer.replayed == START
      modifies `loaded, `exact, `launchLog, `held, writer
      ensures Settled() && !writer.seeded && writer.replayed == START
      ensures launchLog == old(writer.events) + [RunStart]
      ensures exact <==> NoneOnlyMissing(turn.loadedSkills, Grants(), turn.missingSkills)
      ensures loaded == Operated(SeededSet(turn.loadedSkills, |turn.loadedSkills|, Grants(), turn.missingSkills),
                turn.operatorLoads)
    {
      hide AgentRun.InStep, AgentRun.Halted, NoneOnlyMissing;
      Remark(RunStart);
      KeepLaunch();
      Inform(Notice("model_limits"));
      WritePreloads();
      SeedLoadedSkills(turn.loadedSkills, turn.missingSkills);
      RecordOperatorLoads(turn.operatorLoads);
    }

    /** The skills the operator invoked, each loaded again. */
    method RecordOperatorLoads(loads: seq<LoadedSkill>)
      requires InStep() && writer.open
      modifies `loaded, `held, writer
      ensures InStep() && writer.open && loaded == Operated(old(loaded), loads)
      ensures writer.replayed == old(writer.replayed) && writer.seeded == old(writer.seeded)
    {
      hide AgentRun.InStep;
      for i := 0 to |loads|
        invariant InStep() && writer.open && loaded == Operated(old(loaded), loads[..i])
        invariant writer.replayed == old(writer.replayed) && writer.seeded == old(writer.seeded)
      {
        assert DropLast(loads[..i + 1]) == loads[..i];
        RecordLoad(loads[i]);
      }
      assert loads[..|loads|] == loads;
    }

    method RecordLoad(l: LoadedSkill)
      requires InStep() && writer.open
      modifies `loaded, `held, writer
      ensures InStep() && writer.open && loaded == MoveToEnd(old(loaded), l)
      ensures writer.replayed == old(writer.replayed) && writer.seeded == old(writer.seeded)
    {
      hide AgentRun.InStep, AgentRun.Halted, MoveToEnd;
      Facts();
      MoveToEndIsDistinct(loaded, l);
      var events := [SkillLoad(l.name, l.contentHash, ViaOperator)];
      assert DropLast(events) == [];
      RecordSkills(events, MoveToEnd(loaded, l));
    }

    method WritePreloads()
      requires InStep() && writer.open
      modifies `held, writer
      ensures InStep() && writer.open
      ensures writer.replayed == old(writer.replayed) && writer.seeded == old(writer.seeded) &&
                writer.skills == old(writer.skills)
    {
      hide JsonlWriter.Valid, WellFormed, RepliesApart, GoodRequest, RepliesFaithfully, Step, Listen, Legal;
      for i := 0 to |preloaded|
        invariant InStep() && writer.open
        invariant writer.replayed == old(writer.replayed) && writer.seeded == old(writer.seeded) &&
                  writer.skills == old(writer.skills)
      {
        var ev := SkillLoad(preloaded[i].name, preloaded[i].contentHash, ViaPreload);
        TakesSkillEvent(writer.reader, writer.replayed, writer.spoken, ev);
        Write(ev);
      }
    }

    /** Put the seed in place and record it. */
    method WriteSeed(turn: UserTurn)
      requires Settled() && !writer.seeded && writer.replayed == START && Launchable(writer.reader, turn)
      requires apart == RepliesApart(turn.initialMessages)
      modifies `messages, `held, writer
      ensures Settled() && messages == turn.initialMessages && !mergeNext
    {
      hide JsonlWriter.Valid, WellFormed, RepliesApart, GoodRequest, RepliesFaithfully, HeldInStep, Step, Listen, Legal;
      hide Skills.Note;
      hide SeedEvent;
      if turn.initialMessages != [] {
        TakesSeed(writer.reader, writer.spoken, turn.initialMessages, turn.seedSource);
        assert SeedEvent(writer.reader, turn.initialMessages, turn.seedSource).Seed? by {
          hide *;
          SeedEventIsSeed(writer.reader, turn.initialMessages, turn.seedSource);
        }
        messages := turn.initialMessages;
        Write(SeedEvent(writer.reader, turn.initialMessages, turn.seedSource));
      }
    }

    /** Everything ahead of the first turn. */
    method Launch(turn: UserTurn)
      requires Settled() && writer.events == [] && writer.replayed == START && !writer.seeded && writer.skills == []
      requires loaded == [] && messages == [] && !mergeNext && requests == []
      requires Launchable(writer.reader, turn)
      modifies `loaded, `exact, `apart, `messages, `turnIdx, `launchLog, `held, writer
      ensures Settled() && messages == FirstConversation(turn) && !mergeNext && EndsWithUser(messages)
      ensures turnIdx == turn.turnIndexOffset && launchLog == writer.events && [RunStart] <= launchLog
      ensures Conversed(Fold(writer.reader, launchLog)) == Success(FirstConversation(turn))
      ensures exact <==> NoneOnlyMissing(turn.loadedSkills, Grants(), turn.missingSkills)
      ensures apart == RepliesApart(turn.initialMessages)
    {
      hide RepliesApart;
      hide AgentRun.Settled, AgentRun.InStep, Fold, FirstConversation, AgentRun.Halted, NoneOnlyMissing, Launchable;
      NoteApart(turn.initialMessages);
      WritePrologue(turn);
      WriteSeed(turn);
      TellAll(turn);
      turnIdx := turn.turnIndexOffset;
      KeepLaunch();
    }

    /** The turn's user messages, each a user turn. */
    method TellAll(turn: UserTurn)
      requires Settled() && Launchable(writer.reader, turn) && messages == turn.initialMessages
      modifies `messages, `held, writer
      ensures Settled() && messages == FirstConversation(turn) && EndsWithUser(messages)
    {
      hide AgentRun.InStep, AgentRun.Halted, WellFormed, RepliesApart, ContinuationNote, EndsWithNote, PushUserTurn;
      var texts := UserMessages(turn);
      for i := 0 to |texts|
        invariant Settled() && messages == PushAll(turn.initialMessages, texts[..i])
        invariant i > 0 ==> EndsWithUser(messages)
      {
        assert DropLast(texts[..i + 1]) == texts[..i];
        Tell(texts[i]);
      }
      assert texts[..|texts|] == texts;
    }

    ghost method KeepLaunch()
      requires Settled()
      modifies `launchLog
      ensures Settled() && launchLog == writer.events && Conversed(Fold(writer.reader, launchLog)) == Success(messages)
      ensures old(launchLog) <= launchLog
    {
      hide WellFormed, RepliesApart, GoodRequest, RepliesFaithfully, Fold, Heard, LegalLog, HeldInStep, LoadedSkills;
      launchLog := writer.events;
    }

    /** Turns, until one ends the run. */
    method Turns() returns (next: Next)
      requires Settled() && Counted() && recovery.Valid() && EndsWithUser(messages) && turns == 0 && requests == []
      modifies `tick, `provider, `model, `limits, `messages, `mergeNext, `loaded, `compactionSeq, `compactedThisTurn,
               `chainTurn, `turnIdx, `visits, `lastInputTokens, `lastReply, `everyTurn, `turns, `requests, `held,
               writer, recovery
      ensures recovery.Valid() && !next.Continue?
      ensures turns <= (if old(turnIdx) < maxTurns then maxTurns - old(turnIdx) else 0)
      ensures |requests| <= CALLS_PER_CLIENT * (turns + recovery.actions) && visits <= recovery.actions + 1
      ensures next.Abort? ==> Halted()
      ensures next.Finish? ==> Settled()
      ensures next.Finish? && next.loop.Status? ==> next.loop.status == Failed || next.loop == Status(Ok, None)
      ensures next == Finish(Status(Ok, None)) ==>
                && lastReply.Some? && Succeeds(lastReply.value)
                && EndsWithAssistant(messages) && SpeaksNow(writer.spoken)
      ensures CollectsNothing(world) ==> SentAt(requests, 0, old(messages), old(mergeNext))
      ensures next == Finish(Status(Failed, None)) ==> turnIdx >= maxTurns
      ensures next == Finish(Paused) ==> MayPause(world)
      ensures next.Fails() ==> FailsRightly(next)
    {
      hide AgentRun.FailsRightly, AgentRun.Settled, AgentRun.InStep, AgentRun.Halted, RecoveryState.Valid, GoodRequest;
      hide SpeaksNow, Succeeds;
      next := Continue;
      while next.Continue?
        invariant recovery.Valid()
        invariant next.Continue? ==>
                  Settled() && Counted() && Sendable(messages, mergeNext) && turnIdx == old(turnIdx) + turns
        invariant turns <= (if old(turnIdx) < maxTurns then maxTurns - old(turnIdx) else 0)
        invariant |requests| <= CALLS_PER_CLIENT * (turns + recovery.actions) && visits <= recovery.actions + 1
        invariant next.Abort? ==> Halted()
        invariant next == Finish(Paused) ==> MayPause(world)
        invariant next.Fails() ==> FailsRightly(next)
        invariant next.Finish? ==> Settled() && next != Finish(Status(Failed, None))
        invariant next.Finish? && next.loop.Status? ==> next.loop.status == Failed || next.loop == Status(Ok, None)
        invariant next == Finish(Status(Ok, None)) ==>
                    && lastReply.Some? && Succeeds(lastReply.value)
                    && EndsWithAssistant(messages) && SpeaksNow(writer.spoken)
        invariant requests == [] && turns == 0 ==> messages == old(messages) && mergeNext == old(mergeNext)
        invariant next.Continue? && turns > 0 ==> requests != []
        invariant CollectsNothing(world) ==> SentAt(requests, 0, old(messages), old(mergeNext))
        decreases next.Continue?, maxTurns - turnIdx
      {
        if turnIdx >= maxTurns {
          return Finish(Status(Failed, None));
        }
        next := Turn();
      }
    }

    /** What lock-step says of a closed log. */
    lemma ClosedFacts()
      requires Closed()
      ensures Conversed(Fold(writer.reader, writer.events)) == Success(messages)
      ensures LegalLog(writer.reader, writer.events)
      ensures HeldInStep(writer.reader, writer.events, held) && held != [] && Last(held) == messages
      ensures forall r | r in requests :: GoodRequest(r.0, r.1, apart)
      ensures apart ==> RepliesApart(messages)
      ensures exact ==> LoadedSkills(writer.events) == loaded
      ensures launchLog <= writer.events
      ensures writer.events != [] && Last(writer.events).RunComplete?
    {
      hide WellFormed, RepliesApart, GoodRequest, RepliesFaithfully, Fold, Heard, LegalLog, LoadedSkills;
    }

    /** The completion record, by how the loop ended; one that broke off has
        written its own. */
    method Conclude(next: Next) returns (end: RunEnd)
      requires if next.Abort? then Halted() else next.Finish? && Settled()
      requires next.Finish? && next.loop.Status? && next.loop.status == Ok ==>
                 EndsWithAssistant(messages) && SpeaksNow(writer.spoken)
      modifies `held, writer
      ensures Closed() && old(writer.events) <= writer.events
      ensures writer.events != [] && Last(writer.events).RunComplete?
      ensures match next
              case Abort(error) => end == Broke(error) && Last(writer.events).status != Ok &&
                (Last(writer.events).status == Aborted ==> IsStopped(world))
              case Finish(Paused) =>
                end == Completed(Aborted, true, None) && Last(writer.events).status == Aborted
              case Finish(Status(status, outcome)) =>
                end == Completed(status, false, outcome) && Last(writer.events).status == status
              case Continue => false
    {
      hide AgentRun.InStep, SpeaksNow;
      if next.Abort? {
        end := Broke(next.error);
      } else if next.loop.Paused? {
        Close(Aborted, Some("paused"), None);
        end := Completed(Aborted, true, None);
      } else {
        Close(next.loop.status, None, next.loop.outcome);
        end := Completed(next.loop.status, false, next.loop.outcome);
      }
    }

    /** A whole run, from its launch to its completion record. */
    method Run(turn: UserTurn) returns (end: RunEnd)
      requires Settled() && Counted() && recovery.Valid() && recovery.actions == 0
      requires writer.events == [] && writer.replayed == START && !writer.seeded && writer.skills == []
      requires requests == [] && turns == 0 && visits == 0 && messages == [] && loaded == [] && !mergeNext
      requires Launchable(writer.reader, turn)
      modifies this, writer, recovery
      // Lock-step: the log replays to the run's messages, at the end and after
      // every event.
      ensures Conversed(Fold(writer.reader, writer.events)) == Success(messages)
      ensures HeldInStep(writer.reader, writer.events, held) && held != [] && Last(held) == messages
      ensures LegalLog(writer.reader, writer.events)
      ensures exact ==> LoadedSkills(writer.events) == loaded
      ensures exact <==> NoneOnlyMissing(turn.loadedSkills, Grants(), turn.missingSkills)
      // The launch.
      ensures [RunStart] <= launchLog <= writer.events && HasRunStart(writer.events)
      ensures Conversed(Fold(writer.reader, launchLog)) == Success(FirstConversation(turn))
      ensures CollectsNothing(world) ==> SentAt(requests, 0, FirstConversation(turn), false)
      // The requests, and the bounds.
      ensures apart == RepliesApart(turn.initialMessages) && (apart ==> RepliesApart(messages))
      ensures forall r | r in requests :: GoodRequest(r.0, r.1, apart)
      ensures turns <= (if turn.turnIndexOffset < maxTurns then maxTurns - turn.turnIndexOffset else 0)
      ensures recovery.actions <= MAX_RECOVERY_ACTIONS && visits <= MAX_RECOVERY_ACTIONS + 1
      ensures |requests| <= CALLS_PER_CLIENT * (turns + MAX_RECOVERY_ACTIONS)
      // The completion.
      ensures writer.events != [] && Last(writer.events).RunComplete?
      ensures end.Completed? ==> Last(writer.events).status == end.status && (end.paused ==> end.status == Aborted)
      ensures end.Broke? ==> Last(writer.events).status != Ok
      // Nothing stops or pauses a run but a signal to.
      ensures end.Broke? && Last(writer.events).status == Aborted ==> IsStopped(world)
      ensures end.Completed? && end.paused ==> MayPause(world)
      ensures end.Completed? && end.status == Ok ==> lastReply.Some? && Succeeds(lastReply.value)
      ensures Closed()
      ensures end == Completed(Failed, false, None) ==> turnIdx >= maxTurns
      ensures end.Completed? && end.outcome.Some? ==>
                end.status == Failed && FailsRightly(Finish(Status(Failed, end.outcome)))
    {
      hide *;
      Launch(turn);
      var next := Turns();
      recovery.WithinCap();
      EndsNamed(next);
      end := Conclude(next);
      ClosedFacts();
      StartsWithRunStart(launchLog, writer.events);
    }
  }
}

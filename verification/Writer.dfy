/**
 The log being written. Beside the events the writer keeps, as ghosts, what
 they replay to, say and record so far.
 */
module Writer {
  import opened Wrappers
  import opened Conversation
  import opened Transcript
  import opened Collector
  import opened Compaction
  import opened Skills
  import opened Replay
  import opened Protocol

  /** Events that leave the replay, the answer and the loaded set as they are. */
  predicate Inert(ev: Event) {
    match ev
    case RunStart | AssistantDelta(_) | ToolAudit(_, _) | Usage(_) | Notice(_) | OutcomeSeen(_, _) => true
    case RecoveryTaken(_, _, merge, continues) => !merge && !continues
    case Injected(_, _, cadence, _) => cadence == EveryTurn
    case _ => false
  }

  lemma InertIsLegal(reader: SeedReader, st: Replayed, sp: Spoken, ev: Event)
    requires Inert(ev) && st.Replayed?
    ensures Legal(reader, st, sp, ev) && Step(reader, st, ev) == st && Listen(sp, ev) == sp
    ensures forall loaded :: Skills.Note(loaded, ev) == loaded
  {
    hide WrapFor;
  }

  /** `ev` may be written after `st` and `sp`, and takes the replay to `next`
      without saying anything or loading a skill. */
  ghost predicate Takes(reader: SeedReader, st: Replayed, sp: Spoken, ev: Event, next: Replayed) {
    && Legal(reader, st, sp, ev) && Step(reader, st, ev) == next && next.Replayed?
    && Listen(sp, ev) == sp && !ev.SkillLoad?
  }

  lemma TakesUserMessage(reader: SeedReader, st: Replayed, sp: Spoken, content: string)
    requires st.Replayed? && st.accum == NOTHING
    requires content == ContinuationNote() ==> !EndsWithNote(st.messages)
    ensures Takes(reader, st, sp, UserMessage(content), st.(messages := PushUserTurn(st.messages, content)))
  {
    hide WrapFor, ContinuationNote, PushUserTurn, EndsWithNote;
  }

  lemma TakesCompaction(reader: SeedReader, st: Replayed, sp: Spoken, number: nat, summarized: nat, after: seq<Message>)
    requires st.Replayed? && st.accum == NOTHING
    requires Compacts(st.messages, after) && after != [] && NoteCount(after[0].content) == 0
    ensures Takes(reader, st, sp, Compaction(number, summarized, after), st.(messages := after))
  {
    hide WrapFor, Compacts, NoteCount;
  }

  lemma TakesInjection(reader: SeedReader, st: Replayed, sp: Spoken, source: string, framing: InjectionKind,
                       content: string)
    requires st.Replayed? && st.accum == NOTHING
    ensures Takes(reader, st, sp, Injected(source, framing, Once, content),
                  st.(messages := st.messages + [WrapFor(framing, source, content)]))
  {
    hide WrapFor;
  }

  lemma TakesMerge(reader: SeedReader, st: Replayed, sp: Spoken, rung: nat, action: RecoveryAction)
    requires st.Replayed? && st.accum == NOTHING
    ensures Legal(reader, st, sp, RecoveryTaken(rung, action, true, true))
    ensures Step(reader, st, RecoveryTaken(rung, action, true, true)) == st.(mergeNext := true)
  {
    hide WrapFor;
  }

  lemma TakesContinuation(reader: SeedReader, st: Replayed, sp: Spoken, rung: nat, action: RecoveryAction)
    requires st.Replayed?
    ensures Legal(reader, st, sp, RecoveryTaken(rung, action, false, true))
    ensures Step(reader, st, RecoveryTaken(rung, action, false, true)) == st
  {
    hide WrapFor;
  }

  lemma TakesCompletion(reader: SeedReader, st: Replayed, sp: Spoken, ev: Event)
    requires st.Replayed? && ev.RunComplete?
    requires ev.status == Ok ==> st.accum == NOTHING && EndsWithAssistant(st.messages) && SpeaksNow(sp)
    ensures Takes(reader, st, sp, ev, st)
  {
    hide WrapFor, SpeaksNow;
  }

  lemma TakesTurnStart(reader: SeedReader, st: Replayed, sp: Spoken, turnIdx: nat)
    requires st.Replayed? && st.accum == NOTHING && Sendable(st.messages, st.mergeNext)
    ensures Legal(reader, st, sp, TurnStart(turnIdx)) && Step(reader, st, TurnStart(turnIdx)) == st
    ensures Listen(sp, TurnStart(turnIdx)).sawTurnStart
  {
    hide WrapFor, Sendable;
  }

  lemma TakesTurnEnd(reader: SeedReader, st: Replayed, sp: Spoken, turnIdx: nat)
    requires st.Replayed? && Sendable(st.messages, st.mergeNext) && Whole(st.accum)
    ensures Takes(reader, st, sp, TurnEnd(turnIdx, false),
            Replayed(FlushInto(st.messages, st.accum, st.mergeNext), NOTHING, false))
  {
    hide WrapFor, FlushInto, Whole, Sendable;
  }

  lemma TakesDiscard(reader: SeedReader, st: Replayed, sp: Spoken, turnIdx: nat)
    requires st.Replayed?
    ensures Legal(reader, st, sp, TurnEnd(turnIdx, true))
    ensures Step(reader, st, TurnEnd(turnIdx, true)) == st.(accum := NOTHING)
  {
    hide WrapFor;
  }

  lemma TakesSkillEvent(reader: SeedReader, st: Replayed, sp: Spoken, ev: Event)
    requires st.Replayed? && (ev.SkillLoad? || ev.Notice?)
    ensures Legal(reader, st, sp, ev) && Step(reader, st, ev) == st && Listen(sp, ev) == sp
  {
    hide WrapFor;
  }

  /** A piece of the turn being written: content, or a tool result. */
  lemma TakesPiece(reader: SeedReader, st: Replayed, sp: Spoken, ev: Event)
    requires st.Replayed?
    requires ev.AssistantMessage? || ev.Thinking? || ev.ToolCall? || ev.ToolResult? ||
            (ev.AssistantBlock? && !ev.block.Text?)
    ensures Legal(reader, st, sp, ev) && Step(reader, st, ev) == st.(accum := Taken(st.accum, ev))
    ensures !ev.AssistantMessage? ==> Listen(sp, ev) == sp
    ensures SpeaksNow(sp) ==> SpeaksNow(Listen(sp, ev))
    ensures ev.AssistantMessage? && sp.sawTurnStart && !Blank(ev.content) ==> SpeaksNow(Listen(sp, ev))
  {
    hide WrapFor, Blank;
    if ev.AssistantMessage? && sp.sawTurnStart && !Blank(ev.content) {
      assert Listen(sp, ev).chain.fragments == sp.chain.fragments + [ev.content];
      assert ev.content in sp.chain.fragments + [ev.content];
    }
  }

  lemma TakesSeed(reader: SeedReader, sp: Spoken, ms: seq<Message>, source: Option<string>)
    requires WellFormed(ms)
    requires source.Some? ==> reader.resolve(source.value) == Success(ms)
    ensures Takes(reader, START, sp, SeedEvent(reader, ms, source), Replayed(ms, NOTHING, false))
  {
    hide WrapFor, WellFormed, ContinuationNote, EndsWithNote, Compacts, Whole, Sendable, SpeaksNow, FlushInto, Taken;
    hide PushUserTurn, NoteCount;
  }

  /** A seed, by reference when a source is named, else embedded. */
  function SeedEvent(reader: SeedReader, ms: seq<Message>, source: Option<string>): Event {
    if source.Some? then Seed(reader.hash(ms), source, None) else Seed(reader.hash(ms), None, Some(ms))
  }

  lemma SeedEventIsSeed(reader: SeedReader, ms: seq<Message>, source: Option<string>)
    ensures SeedEvent(reader, ms, source).Seed?
  {
  }

  lemma SideEffects(sp: Spoken, loaded: seq<LoadedSkill>, ev: Event)
    ensures sp.sawTurnStart ==> Listen(sp, ev).sawTurnStart
    ensures !ev.SkillLoad? ==> Skills.Note(loaded, ev) == loaded
  {
  }

  class JsonlWriter {
    var events: seq<Event>
    const reader: SeedReader
    /** What the events replay to. */
    ghost var replayed: Replayed
    /** What the events say. */
    ghost var spoken: Spoken
    /** The loaded set that the events record. */
    ghost var skills: seq<LoadedSkill>
    /** No completion is written yet. */
    ghost var open: bool
    /** A seed is written. */
    ghost var seeded: bool

    ghost predicate Valid()
      reads this
    {
      && replayed == Fold(reader, events) && replayed.Replayed? && WellFormed(replayed.messages)
      && spoken == Heard(events) && skills == LoadedSkills(events)
      && LegalLog(reader, events)
      && open == (events == [] || !Last(events).RunComplete?)
      && seeded == (exists e | e in events :: e.Seed?)
    }

    constructor (reader: SeedReader)
      ensures Valid() && events == [] && replayed == START && open && !seeded && spoken == SILENT && skills == []
      ensures this.reader == reader
    {
      this.reader := reader;
      events, replayed, spoken, skills, open, seeded := [], START, SILENT, [], true, false;
    }

    /** Append one event. */
    method Write(ev: Event)
      requires Valid() && open
      requires Legal(reader, replayed, spoken, ev) && (ev.Seed? ==> !seeded)
      modifies this
      ensures Valid()
      ensures events == old(events) + [ev]
      ensures replayed == Step(reader, old(replayed), ev)
      ensures spoken == Listen(old(spoken), ev) && (old(spoken.sawTurnStart) ==> spoken.sawTurnStart)
      ensures skills == Skills.Note(old(skills), ev)
      ensures open == !ev.RunComplete?
      ensures seeded == (old(seeded) || ev.Seed?)
      ensures !ev.SkillLoad? ==> skills == old(skills)
    {
      hide Step, Listen, Skills.Note, Legal, WellFormed;
      SideEffects(spoken, skills, ev);
      StepKeepsWellFormed(reader, replayed, spoken, ev);
      OneMoreEvent(reader, events, ev);
      events := events + [ev];
      replayed := Step(reader, replayed, ev);
      spoken := Listen(spoken, ev);
      skills := Skills.Note(skills, ev);
      open := !ev.RunComplete?;
      seeded := seeded || ev.Seed?;
    }
  }

  /** One legal event more, in each of the folds. */
  lemma OneMoreEvent(reader: SeedReader, events: seq<Event>, ev: Event)
    requires LegalLog(reader, events) && Fold(reader, events).Replayed?
    requires Legal(reader, Fold(reader, events), Heard(events), ev)
    requires ev.Seed? ==> forall e | e in events :: !e.Seed?
    requires events != [] ==> !Last(events).RunComplete?
    ensures LegalLog(reader, events + [ev])
    ensures Fold(reader, events + [ev]) == Step(reader, Fold(reader, events), ev)
    ensures Heard(events + [ev]) == Listen(Heard(events), ev)
    ensures LoadedSkills(events + [ev]) == Skills.Note(LoadedSkills(events), ev)
    ensures (exists e | e in events + [ev] :: e.Seed?) <==> (exists e | e in events :: e.Seed?) || ev.Seed?
  {
    hide Step, Listen, Skills.Note, Legal;
    assert DropLast(events + [ev]) == events && Last(events + [ev]) == ev;
    assert forall e :: e in events + [ev] <==> e in events || e == ev;
  }

  /** After each event the log replays to the conversation that `held` has for
      it. */
  ghost predicate HeldInStep(reader: SeedReader, events: seq<Event>, held: seq<seq<Message>>) {
    && |held| == |events|
    && forall i | 0 <= i < |held| :: Conversed(Fold(reader, events[..i + 1])) == Success(held[i])
  }

  lemma HeldOneMore(reader: SeedReader, events: seq<Event>, held: seq<seq<Message>>, ev: Event,
                    conversation: seq<Message>)
    requires HeldInStep(reader, events, held)
    requires Conversed(Step(reader, Fold(reader, events), ev)) == Success(conversation)
    ensures HeldInStep(reader, events + [ev], held + [conversation])
  {
    hide Step, Conversed;
    var longer := events + [ev];
    forall i | 0 <= i < |longer|
      ensures Conversed(Fold(reader, longer[..i + 1])) == Success((held + [conversation])[i])
    {
      if i < |events| {
        assert longer[..i + 1] == events[..i + 1];
      } else {
        assert longer[..i + 1] == longer && DropLast(longer) == events;
      }
    }
  }
}

/**
 The run's log: its events, and the answer text that a reader takes from them.
 Only the fields that a reader of this model looks at are kept.
 */
module Transcript {
  import opened Wrappers
  import opened Conversation
  import opened Outcomes

  datatype RunStatus = Ok | Failed | Aborted

  datatype Cadence = EveryTurn | Once

  datatype InjectionKind = Peer | Directive | Observation | StatusNote | Operator

  datatype LoadVia = ViaModel | ViaPreload | ViaOperator | ViaReattach | ViaContinuation

  datatype RecoveryAction =
    | CarriedOn | Retried | Compacted | FellBack | Skipped | ServedByFallback | GaveUp

  datatype Event =
    | RunStart
    | TurnStart(turnIdx: nat)
    | AssistantDelta(content: string)
    | AssistantMessage(content: string)
    | Thinking(summary: Option<string>, provider: string, model: string, raw: string)
    | ToolCall(callId: string, tool: string, input: string)
    | AssistantBlock(block: ContentBlock, abandoned: bool)
    | ToolResult(callId: string, output: string, error: Option<string>)
    | ToolAudit(tool: string, decision: string)
    | TurnEnd(turnIdx: nat, discarded: bool)
    | Usage(compaction: bool)
    | RunComplete(status: RunStatus, error: Option<string>, outcome: Option<OutcomeClass>)
    | UserMessage(content: string)
    | Seed(sha: string, sourcePath: Option<string>, inline: Option<seq<Message>>)
    | Compaction(number: nat, summarized: nat, messages: seq<Message>)
    | Notice(kind: string)
    | OutcomeSeen(turnIdx: nat, verdict: OutcomeClass)
    | RecoveryTaken(rung: nat, action: RecoveryAction, mergeIntoPrevious: bool, continuesOutput: bool)
    | Injected(source: string, framing: InjectionKind, cadence: Cadence, content: string)
    | SkillLoad(name: string, contentHash: string, via: LoadVia)

  /** Whether a log is one of an agent run. */
  predicate HasRunStart(events: seq<Event>) {
    exists e | e in events :: e.RunStart?
  }

  // ------------------------------------------------------------ final answer

  const FRAGMENT_SEPARATOR: string := "\n\n"

  function Join(parts: seq<string>, separator: string): string {
    if parts == [] then ""
    else if |parts| == 1 then parts[0]
    else Join(DropLast(parts), separator) + separator + Last(parts)
  }

  /** The first part, the separator, and the rest joined. */
  lemma {:induction false} JoinFromFront(parts: seq<string>, separator: string)
    requires |parts| > 1
    ensures Join(parts, separator) == parts[0] + separator + Join(parts[1..], separator)
  {
    var front, rest, last := DropLast(parts), parts[1..], Last(parts);
    assert Join(parts, separator) == Join(front, separator) + separator + last;
    if |parts| == 2 {
      assert rest == [last] && front == [parts[0]];
    } else {
      JoinFromFront(front, separator);
      assert front[1..] == DropLast(rest) && Last(rest) == last;
      var middle := Join(DropLast(rest), separator);
      assert Join(rest, separator) == middle + separator + last;
      hide Join;
      assert (parts[0] + separator + middle) + separator + last == parts[0] + separator + (middle + separator + last);
    }
  }

  /** The state a truncation chain can be rolled back to. */
  datatype ChainState = ChainState(carried: seq<string>, fragments: seq<string>, carryNext: bool)

  datatype Spoken = Spoken(
    sawTurnStart: bool,
    chain: ChainState,
    chainBeforeTurn: ChainState,
    last: Option<string>,
    lastBeforeTurn: Option<string>)

  const SILENT: Spoken :=
    Spoken(false, ChainState([], [], false), ChainState([], [], false), None, None)

  function Listen(sp: Spoken, ev: Event): Spoken {
    match ev
    case TurnStart(_) =>
      sp.(sawTurnStart := true,
          chainBeforeTurn := sp.chain,
          chain := ChainState(if sp.chain.carryNext then sp.chain.carried + sp.chain.fragments else [], [], false),
          lastBeforeTurn := sp.last)
    case AssistantMessage(content) =>
      if Blank(content) then sp
      else sp.(chain := if sp.sawTurnStart then sp.chain.(fragments := sp.chain.fragments + [content]) else sp.chain,
               last := Some(content))
    case TurnEnd(_, true) => sp.(chain := sp.chainBeforeTurn, last := sp.lastBeforeTurn)
    case RecoveryTaken(_, _, _, true) => sp.(chain := sp.chain.(carryNext := true))
    case _ => sp
  }

  /** What the events say so far, folded in order. */
  function Heard(events: seq<Event>): Spoken {
    if events == [] then SILENT else Listen(Heard(DropLast(events)), Last(events))
  }

  /** The run's answer: the text of its last turn, with the turns it continues;
      else the last text there was. */
  function AnswerOf(sp: Spoken): Option<string> {
    var all := sp.chain.carried + sp.chain.fragments;
    if all == [] then sp.last else Some(Join(all, FRAGMENT_SEPARATOR))
  }

  function FinalTurnText(events: seq<Event>): Option<string> {
    AnswerOf(Heard(events))
  }

  // The same answer turn by turn: a turn is what follows its start, and a
  // logical turn is one with those whose cut-off output it carries on.

  /** The events up to the last turn's start, that one included; none without a
      turn. */
  function LastStart(events: seq<Event>): (n: nat)
    ensures n <= |events|
  {
    if events == [] then 0 else if Last(events).TurnStart? then |events| else LastStart(DropLast(events))
  }

  predicate DropsTurn(e: Event) {
    e.TurnEnd? && e.discarded
  }

  /** The events up to the last end of a discarded turn, that one included. */
  function LastDiscard(events: seq<Event>): (n: nat)
    ensures n <= |events|
  {
    if events == [] then 0
    else if DropsTurn(Last(events)) then |events|
    else LastDiscard(DropLast(events))
  }

  /** The texts said, the blank ones left out. */
  function Texts(events: seq<Event>): seq<string> {
    if events == [] then []
    else
      var e := Last(events);
      Texts(DropLast(events)) + (if e.AssistantMessage? && !Blank(e.content) then [e.content] else [])
  }

  /** The output so far was cut off, and the next turn carries it on. */
  predicate Continues(events: seq<Event>) {
    exists e | e in events :: e.RecoveryTaken? && e.continuesOutput
  }

  /** A logical turn, and the last text that was said up to its end. */
  datatype LogicalTurn = LogicalTurn(texts: seq<string>, goesOn: bool, last: Option<string>)

  const NO_TURN: LogicalTurn := LogicalTurn([], false, None)

  /** The last of `texts`, or else what was said before them. */
  function LastOf(texts: seq<string>, before: Option<string>): Option<string> {
    if texts == [] then before else Some(Last(texts))
  }

  /** What a turn makes of the logical turn before it; nothing, when it was
      discarded. */
  function TurnAfter(before: LogicalTurn, turn: seq<Event>): LogicalTurn {
    var discard := LastDiscard(turn);
    if discard > 0
    then
      var rest := turn[discard..];
      LogicalTurn(before.texts + Texts(rest), before.goesOn || Continues(rest), LastOf(Texts(rest), before.last))
    else
      LogicalTurn(
        (if before.goesOn then before.texts else []) + Texts(turn), Continues(turn), LastOf(Texts(turn), before.last))
  }

  /** What is said before any turn starts is in none. */
  function Untimely(events: seq<Event>): LogicalTurn {
    LogicalTurn([], Continues(events), LastOf(Texts(events), None))
  }

  /** The logical turn at the end of `events`. */
  function LogicalTurnOf(events: seq<Event>): LogicalTurn
    decreases |events|
  {
    var start := LastStart(events);
    var turn := events[start..];
    if start == 0 then Untimely(turn[LastDiscard(turn)..])
    else TurnAfter(LogicalTurnOf(events[..start - 1]), turn)
  }

  function SaidBy(chain: ChainState, last: Option<string>): LogicalTurn {
    LogicalTurn(chain.carried + chain.fragments, chain.carryNext, last)
  }

  function Now(sp: Spoken): LogicalTurn {
    SaidBy(sp.chain, sp.last)
  }

  function Before(sp: Spoken): LogicalTurn {
    SaidBy(sp.chainBeforeTurn, sp.lastBeforeTurn)
  }

  /** What is heard event by event is the logical turn. */
  lemma {:induction false} HeardIsLogicalTurn(events: seq<Event>)
    ensures Now(Heard(events)) == LogicalTurnOf(events)
    ensures Heard(events).sawTurnStart <==> LastStart(events) > 0
    ensures Before(Heard(events)) == BeforeTurn(events)
  {
    hide Listen, TurnAfter, Now, Before, Continues, Texts;
    if events == [] {
      NothingHeard();
    } else {
      var before, e := DropLast(events), Last(events);
      HeardIsLogicalTurn(before);
      assert events == before + [e];
      if e.TurnStart? {
        HearsStart(Heard(before), e);
        assert events[..|events| - 1] == before && events[|events|..] == [];
        JustStarted(LogicalTurnOf(before));
      } else {
        HearsMore(Heard(before), e);
        OneMoreHeard(before, e);
      }
    }
  }

  /** The logical turn that a discarded turn would leave. */
  function BeforeTurn(events: seq<Event>): LogicalTurn {
    if LastStart(events) == 0 then NO_TURN else LogicalTurnOf(events[..LastStart(events) - 1])
  }

  /** `e` comes on top of the logical turn `now`, in a turn or before any. */
  function Grown(now: LogicalTurn, inTurn: bool, e: Event): LogicalTurn {
    LogicalTurn(
      now.texts + (if inTurn then Texts([e]) else []), now.goesOn || Continues([e]), LastOf(Texts([e]), now.last))
  }

  lemma NothingHeard()
    ensures Now(SILENT) == NO_TURN == Before(SILENT) && LogicalTurnOf([]) == NO_TURN
  {
  }

  function Started(before: LogicalTurn): LogicalTurn {
    LogicalTurn(if before.goesOn then before.texts else [], false, before.last)
  }

  lemma JustStarted(before: LogicalTurn)
    ensures TurnAfter(before, []) == Started(before)
  {
  }

  lemma HearsStart(sp: Spoken, e: Event)
    requires e.TurnStart?
    ensures var next := Listen(sp, e);
            next.sawTurnStart && Before(next) == Now(sp) && Now(next) == Started(Now(sp))
  {
  }

  lemma HearsMore(sp: Spoken, e: Event)
    requires !e.TurnStart?
    ensures var next := Listen(sp, e);
            && next.sawTurnStart == sp.sawTurnStart && Before(next) == Before(sp)
            && Now(next) == if DropsTurn(e) then Before(sp) else Grown(Now(sp), sp.sawTurnStart, e)
  {
    hide Blank, Texts, Continues;
    OneEvent(e);
    if e.AssistantMessage? {
      assert sp.chain.carried + (sp.chain.fragments + [e.content]) ==
             (sp.chain.carried + sp.chain.fragments) + [e.content];
    }
  }

  /** An event more, within a turn or before any. */
  lemma OneMoreHeard(before: seq<Event>, e: Event)
    requires !e.TurnStart?
    ensures var events := before + [e];
            && LastStart(events) == LastStart(before) && BeforeTurn(events) == BeforeTurn(before)
            && LogicalTurnOf(events) ==
                 if DropsTurn(e) then BeforeTurn(before) else Grown(LogicalTurnOf(before), LastStart(before) > 0, e)
  {
    hide Texts, Continues, TurnAfter, Grown;
    var events, start := before + [e], LastStart(before);
    assert DropLast(events) == before;
    var turn := before[start..];
    assert events[start..] == turn + [e];
    if start > 0 {
      assert events[..start - 1] == before[..start - 1];
      TurnOneMore(LogicalTurnOf(before[..start - 1]), turn, e);
    } else {
      NoTurnOneMore(turn, e);
    }
  }

  lemma TurnOneMore(before: LogicalTurn, turn: seq<Event>, e: Event)
    ensures TurnAfter(before, turn + [e]) == if DropsTurn(e) then before else Grown(TurnAfter(before, turn), true, e)
  {
    hide Texts, Continues, LastOf, LastDiscard, DropsTurn;
    DiscardOneMore(turn, e);
    NoTexts();
    var d, kept := LastDiscard(turn), if before.goesOn then before.texts else [];
    if !DropsTurn(e) {
      assert (turn + [e])[d..] == turn[d..] + [e] && turn[0..] == turn;
      TextsOneMore(turn[d..], e);
      LastOfMore(Texts(turn[d..]), Texts([e]), before.last);
      var first := if d > 0 then before.texts else kept;
      assert first + (Texts(turn[d..]) + Texts([e])) == first + Texts(turn[d..]) + Texts([e]);
    } else {
      LastOfMore([], [], before.last);
      assert (turn + [e])[|turn| + 1..] == [] && before.texts + [] == before.texts;
    }
  }

  lemma LastOfMore(texts: seq<string>, more: seq<string>, before: Option<string>)
    ensures LastOf(texts + more, before) == LastOf(more, LastOf(texts, before)) && LastOf([], before) == before
  {
    assert more == [] ==> texts + more == texts;
  }

  lemma NoTurnOneMore(turn: seq<Event>, e: Event)
    ensures var longer := turn + [e];
            Untimely(longer[LastDiscard(longer)..]) ==
            if DropsTurn(e) then NO_TURN else Grown(Untimely(turn[LastDiscard(turn)..]), false, e)
  {
    hide Texts, Continues, LastDiscard, DropsTurn, LastOf;
    DiscardOneMore(turn, e);
    NoTexts();
    LastOfMore([], [], None);
    var d := LastDiscard(turn);
    if !DropsTurn(e) {
      assert (turn + [e])[d..] == turn[d..] + [e];
      TextsOneMore(turn[d..], e);
      LastOfMore(Texts(turn[d..]), Texts([e]), None);
    } else {
      assert (turn + [e])[|turn| + 1..] == [];
    }
  }

  lemma DiscardOneMore(turn: seq<Event>, e: Event)
    ensures LastDiscard(turn + [e]) == if DropsTurn(e) then |turn| + 1 else LastDiscard(turn)
  {
    assert DropLast(turn + [e]) == turn;
  }

  lemma NoTexts()
    ensures Texts([]) == [] && !Continues([])
  {
  }

  lemma OneEvent(e: Event)
    ensures Texts([e]) == if e.AssistantMessage? && !Blank(e.content) then [e.content] else []
    ensures Continues([e]) <==> e.RecoveryTaken? && e.continuesOutput
  {
    hide Blank;
    assert DropLast([e]) == [] && [e][0] == e;
  }

  lemma TextsOneMore(events: seq<Event>, e: Event)
    ensures Texts(events + [e]) == Texts(events) + Texts([e])
    ensures Continues(events + [e]) <==> Continues(events) || Continues([e])
  {
    hide Blank;
    assert DropLast(events + [e]) == events && DropLast([e]) == [];
  }

  /** The answer is the logical turn's texts, joined; or, when it has none, the
      last text that was said and not discarded. */
  lemma AnswerIsLogicalTurn(events: seq<Event>)
    ensures var turn := LogicalTurnOf(events);
            FinalTurnText(events) ==
            if turn.texts == [] then turn.last else Some(Join(turn.texts, FRAGMENT_SEPARATOR))
    ensures SpeaksNow(Heard(events)) ==> LogicalTurnOf(events).texts != []
  {
    hide LogicalTurnOf, Heard, Join;
    HeardIsLogicalTurn(events);
  }

  /** The reader's own loop over the events. */
  method ReadFinalTurnText(events: seq<Event>) returns (answer: Option<string>)
    ensures answer == FinalTurnText(events)
  {
    var sawTurnStart := false;
    var fragments: seq<string>, carried: seq<string>, carryNext := [], [], false;
    var last: Option<string>, lastBeforeTurn: Option<string> := None, None;
    var before := ChainState([], [], false);
    for i := 0 to |events|
      invariant Heard(events[..i]) ==
                Spoken(sawTurnStart, ChainState(carried, fragments, carryNext), before, last, lastBeforeTurn)
    {
      assert DropLast(events[..i + 1]) == events[..i];
      match events[i] {
        case TurnStart(_) =>
          sawTurnStart := true;
          before := ChainState(carried, fragments, carryNext);
          if carryNext {
            carried := carried + fragments;
          } else {
            carried := [];
          }
          fragments := [];
          carryNext := false;
          lastBeforeTurn := last;
        case AssistantMessage(content) =>
          if !Blank(content) {
            if sawTurnStart {
              fragments := fragments + [content];
            }
            last := Some(content);
          }
        case TurnEnd(_, discarded) =>
          if discarded {
            carried, fragments, carryNext := before.carried, before.fragments, before.carryNext;
            last := lastBeforeTurn;
          }
        case RecoveryTaken(_, _, _, continues) =>
          if continues {
            carryNext := true;
          }
        case _ =>
      }
    }
    assert events[..|events|] == events;
    carried := carried + fragments;
    answer := if carried == [] then last else Some(Join(carried, FRAGMENT_SEPARATOR));
  }

  /** Some fragment of the turn being heard is not blank. */
  predicate SpeaksNow(sp: Spoken) {
    exists f | f in sp.chain.fragments :: !Blank(f)
  }

  lemma {:induction false} JoinNotBlank(parts: seq<string>, part: string)
    requires part in parts && !Blank(part)
    ensures !Blank(Join(parts, FRAGMENT_SEPARATOR))
  {
    hide Blank;
    if |parts| > 1 {
      var front, last := Join(DropLast(parts), FRAGMENT_SEPARATOR), Last(parts);
      var whole := front + FRAGMENT_SEPARATOR + last;
      assert whole == front + ['\n'] + (['\n'] + last) == (front + ['\n']) + ['\n'] + last;
      if Last(parts) != part {
        assert part in DropLast(parts);
        JoinNotBlank(DropLast(parts), part);
      }
      if Blank(whole) {
        BlankAround(front, '\n', ['\n'] + last);
        BlankAround(front + ['\n'], '\n', last);
      }
    }
  }

  /** A turn that spoke leaves an answer that is not blank. */
  lemma SpokenAnswer(sp: Spoken)
    requires SpeaksNow(sp)
    ensures AnswerOf(sp).Some? && !Blank(AnswerOf(sp).value)
  {
    var f :| f in sp.chain.fragments && !Blank(f);
    JoinNotBlank(sp.chain.carried + sp.chain.fragments, f);
  }
}

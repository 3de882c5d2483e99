/**
 Rebuilding the provider conversation from a log.

 `Replay` is the fold that gives the log its meaning; `TurnAccum` and
 `ReconstructWith` are the loop that computes it.
 */
module Replay {
  import opened Wrappers
  import opened Conversation
  import opened Transcript
  import opened Collector

  datatype ReplayError =
    | SeedUnresolved(path: string)
    | SeedSource(path: string)
    | SeedHashMismatch(path: string)
    | SeedChainTooDeep
    | SeedChainCycle(path: string)

  /** How seeds by reference are read: the conversation another log rebuilds
      to, and the hash a seed is verified with. */
  datatype SeedReader = SeedReader(
    resolve: string -> Result<seq<Message>, ReplayError>,
    hash: seq<Message> -> string)

  // ------------------------------------------------------------ the meaning

  datatype Accum = Accum(
    blocks: seq<ContentBlock>,
    calls: seq<string>,
    results: map<string, (string, Option<string>)>)

  const NOTHING: Accum := Accum([], [], map[])

  /** The conversation so far, the turn being read, and whether the next kept
      turn continues a paused one; or the error that ended the replay. */
  datatype Replayed =
    | Replayed(messages: seq<Message>, accum: Accum, mergeNext: bool)
    | Broken(error: ReplayError)

  const START: Replayed := Replayed([], NOTHING, false)

  /** The results of `calls`, in call order, each call id answered once. */
  function Drain(calls: seq<string>, results: map<string, (string, Option<string>)>): seq<ContentBlock> {
    if calls == [] then []
    else if calls[0] in results then
      [ResultBlock(calls[0], results[calls[0]].0, results[calls[0]].1)] + Drain(calls[1..], results - {calls[0]})
    else Drain(calls[1..], results)
  }

  function FlushInto(ms: seq<Message>, accum: Accum, merge: bool): seq<Message> {
    AppendResults(AppendAssistant(ms, merge, accum.blocks), Drain(accum.calls, accum.results))
  }

  function SeedMessages(reader: SeedReader, sha: string, source: Option<string>,
                        inline: Option<seq<Message>>): Result<seq<Message>, ReplayError> {
    match (inline, source)
    case (Some(ms), _) => Success(ms)
    case (None, None) => Success([])
    case (None, Some(path)) =>
      match reader.resolve(path)
      case Failure(e) => Failure(e)
      case Success(ms) => if reader.hash(ms) == sha then Success(ms) else Failure(SeedHashMismatch(path))
  }

  /** Take one event into account. */
  function Step(reader: SeedReader, st: Replayed, ev: Event): Replayed {
    hide WrapFor;
    if st.Broken? then st
    else
      match ev
      case Seed(sha, source, inline) =>
        (match SeedMessages(reader, sha, source, inline)
         case Success(ms) => st.(messages := ms)
         case Failure(e) => Broken(e))
      case UserMessage(content) => st.(messages := PushUserTurn(st.messages, content))
      case Compaction(_, _, ms) => st.(messages := ms)
      case TurnEnd(_, discarded) =>
        if discarded then st.(accum := NOTHING)
        else Replayed(FlushInto(st.messages, st.accum, st.mergeNext), NOTHING, false)
      case RecoveryTaken(_, _, merge, _) => if merge then st.(mergeNext := true) else st
      case Injected(source, framing, cadence, content) =>
        if cadence == Once then st.(messages := st.messages + [WrapFor(framing, source, content)]) else st
      case _ => st.(accum := Taken(st.accum, ev))
  }

  /** A piece of the turn being read, added to what was read of it. */
  function Taken(accum: Accum, ev: Event): Accum {
    match ev
    case Thinking(summary, provider, model, raw) => WithBlock(accum, Reasoning(summary, provider, model, raw))
    case AssistantMessage(content) => if content == "" then accum else WithBlock(accum, Text(content))
    case ToolCall(id, tool, input) => WithBlock(accum, ToolUse(id, tool, input)).(calls := accum.calls + [id])
    case AssistantBlock(block, abandoned) => if abandoned then accum else WithBlock(accum, block)
    case ToolResult(id, output, error) => accum.(results := accum.results[id := (output, error)])
    case _ => accum
  }

  function WithBlock(accum: Accum, block: ContentBlock): Accum {
    accum.(blocks := accum.blocks + [block])
  }

  /** Take events into account from `st` on. */
  function Steps(reader: SeedReader, st: Replayed, events: seq<Event>): Replayed {
    if events == [] then st else Step(reader, Steps(reader, st, DropLast(events)), Last(events))
  }

  /** What a log replays to. */
  function Fold(reader: SeedReader, events: seq<Event>): Replayed {
    Steps(reader, START, events)
  }

  /** The conversation of a replay: a turn that never ended is not in it. */
  function Conversed(st: Replayed): Result<seq<Message>, ReplayError> {
    match st
    case Broken(e) => Failure(e)
    case Replayed(ms, _, _) => Success(ms)
  }

  lemma {:induction false} StepsConcat(reader: SeedReader, st: Replayed, a: seq<Event>, b: seq<Event>)
    ensures Steps(reader, st, a + b) == Steps(reader, Steps(reader, st, a), b)
  {
    if b == [] {
      assert a + b == a;
    } else {
      assert DropLast(a + b) == a + DropLast(b);
      StepsConcat(reader, st, a, DropLast(b));
    }
  }

  // ------------------------------------------------------------- the reader

  class TurnAccum {
    var blocks: seq<ContentBlock>
    var calls: seq<string>
    var results: map<string, (string, Option<string>)>

    constructor ()
      ensures Value() == NOTHING
    {
      blocks, calls, results := [], [], map[];
    }

    function Value(): Accum
      reads this
    {
      Accum(blocks, calls, results)
    }

    /** A piece of the turn being read; any other event changes nothing. */
    method Take(ev: Event)
      modifies this
      ensures Value() == Taken(old(Value()), ev)
    {
      match ev {
        case Thinking(summary, provider, model, raw) =>
          blocks := blocks + [Reasoning(summary, provider, model, raw)];
        case AssistantMessage(content) =>
          if content != "" {
            blocks := blocks + [Text(content)];
          }
        case ToolCall(id, tool, input) =>
          blocks := blocks + [ToolUse(id, tool, input)];
          calls := calls + [id];
        case AssistantBlock(block, abandoned) =>
          if !abandoned {
            blocks := blocks + [block];
          }
        case ToolResult(id, output, error) =>
          results := results[id := (output, error)];
        case _ =>
      }
    }

    method Discard()
      modifies this
      ensures Value() == NOTHING
    {
      blocks, calls, results := [], [], map[];
    }

    method Flush(messages: seq<Message>, merge: bool) returns (after: seq<Message>)
      modifies this
      ensures after == FlushInto(messages, old(Value()), merge)
      ensures TurnJoins(messages, merge, old(blocks), old(Drain(calls, results)), after)
      ensures Value() == NOTHING
    {
      after := messages;
      if blocks != [] {
        if merge && EndsWithAssistant(after) {
          after := DropLast(after) + [Message(Assistant, Last(after).content + blocks)];
        } else {
          after := after + [Message(Assistant, blocks)];
        }
        blocks := [];
      }
      var out: seq<ContentBlock> := [];
      while calls != []
        invariant out + Drain(calls, results) == old(Drain(calls, results))
        invariant blocks == []
        decreases |calls|
      {
        var id := calls[0];
        calls := calls[1..];
        if id in results {
          out := out + [ResultBlock(id, results[id].0, results[id].1)];
          results := results - {id};
        }
      }
      assert out + [] == out == old(Drain(calls, results));
      if out != [] {
        after := after + [Message(User, out)];
      }
      results := map[];
      AppendedTurnJoins(messages, merge, old(blocks), out);
    }
  }

  /** Take one event into account: the loop body of the replay. */
  method Absorb(reader: SeedReader, messages: seq<Message>, mergeNext: bool, accum: TurnAccum, ev: Event)
    returns (after: Result<(seq<Message>, bool), ReplayError>)
    modifies accum
    ensures Step(reader, Replayed(messages, old(accum.Value()), mergeNext), ev) ==
            match after
            case Failure(e) => Broken(e)
            case Success((ms, merge)) => Replayed(ms, accum.Value(), merge)
  {
    hide WrapFor;
    after := Success((messages, mergeNext));
    if ev.Seed? {
      var seed := SeedMessages(reader, ev.sha, ev.sourcePath, ev.inline);
      after := if seed.Success? then Success((seed.value, mergeNext)) else Failure(seed.error);
    } else if ev.UserMessage? {
      after := Success((PushUserTurn(messages, ev.content), mergeNext));
    } else if ev.Compaction? {
      after := Success((ev.messages, mergeNext));
    } else if ev.TurnEnd? && ev.discarded {
      accum.Discard();
    } else if ev.TurnEnd? {
      var flushed := accum.Flush(messages, mergeNext);
      after := Success((flushed, false));
    } else if ev.RecoveryTaken? && ev.mergeIntoPrevious {
      after := Success((messages, true));
    } else if ev.Injected? && ev.cadence == Once {
      after := Success((messages + [WrapFor(ev.framing, ev.source, ev.content)], mergeNext));
    } else {
      accum.Take(ev);
    }
  }

  /** Replay a log; a seed by reference is read with `reader`. */
  method ReconstructWith(reader: SeedReader, events: seq<Event>) returns (r: Result<seq<Message>, ReplayError>)
    ensures r == Conversed(Fold(reader, events))
  {
    var messages: seq<Message> := [];
    var accum := new TurnAccum();
    var mergeNext := false;
    for i := 0 to |events|
      invariant fresh(accum)
      invariant Fold(reader, events[..i]) == Replayed(messages, accum.Value(), mergeNext)
    {
      FoldNext(reader, events, i);
      var after := Absorb(reader, messages, mergeNext, accum, events[i]);
      if after.Failure? {
        StaysBroken(reader, events, i + 1);
        return Failure(after.error);
      }
      messages, mergeNext := after.value.0, after.value.1;
    }
    assert events[..|events|] == events;
    r := Success(messages);
  }

  lemma FoldNext(reader: SeedReader, events: seq<Event>, i: nat)
    requires i < |events|
    ensures Fold(reader, events[..i + 1]) == Step(reader, Fold(reader, events[..i]), events[i])
  {
    assert DropLast(events[..i + 1]) == events[..i];
  }

  lemma {:induction false} StaysBroken(reader: SeedReader, events: seq<Event>, i: nat)
    requires i <= |events| && Fold(reader, events[..i]).Broken?
    ensures Fold(reader, events) == Fold(reader, events[..i])
    decreases |events| - i
  {
    if i == |events| {
      assert events[..i] == events;
    } else {
      assert DropLast(events[..i + 1]) == events[..i];
      StaysBroken(reader, events, i + 1);
    }
  }

  // --------------------------------------------------- draining tool results

  lemma OneResultAnswersOne(id: string, output: string, error: Option<string>)
    ensures Answers([ResultBlock(id, output, error)]) == [id] && Uses([ResultBlock(id, output, error)]) == []
  {
    hide ClampToolResult;
    assert DropLast([ResultBlock(id, output, error)]) == [];
  }

  /** Draining answers exactly the calls, when each has one result. */
  lemma {:induction false} DrainAnswers(calls: seq<string>, results: map<string, (string, Option<string>)>)
    requires Distinct(calls) && forall id | id in calls :: id in results
    ensures Answers(Drain(calls, results)) == calls && Uses(Drain(calls, results)) == []
    ensures |Drain(calls, results)| == |calls|
  {
    if calls == [] {
    } else {
      hide ResultBlock, Uses, Answers, Distinct;
      var rest := results - {calls[0]};
      DistinctParts(calls);
      assert forall id | id in calls[1..] :: id in calls && id in rest;
      DrainAnswers(calls[1..], rest);
      var first := ResultBlock(calls[0], results[calls[0]].0, results[calls[0]].1);
      OneResultAnswersOne(calls[0], results[calls[0]].0, results[calls[0]].1);
      UsesConcat([first], Drain(calls[1..], rest));
      assert Drain(calls, results) == [first] + Drain(calls[1..], rest);
    }
  }
}

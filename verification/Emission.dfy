/**
 The events one turn writes, and when replaying them gives exactly the
 messages that the agent loop adds for that turn.
 */
module Emission {
  import opened Wrappers
  import opened Conversation
  import opened Outcomes
  import opened Transcript
  import opened Collector
  import opened Replay

  // ---------------------------------------------------------- turn content

  /** The events of the block at `i` of a turn's content. */
  function EmittedBlock(boundary: Option<nat>, i: nat, block: ContentBlock): seq<Event> {
    if IsAbandoned(boundary, i, block) then [AssistantBlock(block, true)]
    else
      match block
      case Text(text) => [AssistantMessage(text)]
      case Reasoning(summary, provider, model, raw) => [Thinking(summary, provider, model, raw)]
      case ToolUse(id, name, input) => [ToolCall(id, name, input)]
      case ToolResult(_, _, _) => []
      case Unknown(_) | Fallback(_, _) => [AssistantBlock(block, false)]
  }

  function EmittedUpTo(content: seq<ContentBlock>, boundary: Option<nat>, n: nat): seq<Event>
    requires n <= |content|
  {
    if n == 0 then [] else EmittedUpTo(content, boundary, n - 1) + EmittedBlock(boundary, n - 1, content[n - 1])
  }

  /** The events that carry a kept turn's content. */
  function Emitted(content: seq<ContentBlock>): seq<Event> {
    EmittedUpTo(content, FallbackBoundary(content), |content|)
  }

  // ---------------------------------------------------------- tool results

  /** One dispatched call: its id, its output and its error. */
  datatype CallResult = CallResult(id: string, output: string, error: Option<string>)

  function ResultIds(rs: seq<CallResult>): seq<string> {
    seq(|rs|, i requires 0 <= i < |rs| => rs[i].id)
  }

  function ResultEvents(rs: seq<CallResult>): seq<Event> {
    seq(|rs|, i requires 0 <= i < |rs| => Event.ToolResult(rs[i].id, rs[i].output, rs[i].error))
  }

  /** The blocks that the agent loop adds for the results. */
  function ResultBlocks(rs: seq<CallResult>): seq<ContentBlock> {
    seq(|rs|, i requires 0 <= i < |rs| => ResultBlock(rs[i].id, rs[i].output, rs[i].error))
  }

  /** The results as the replay looks them up: a later one with the same id
      replaces an earlier one. */
  function ResultMap(rs: seq<CallResult>): map<string, (string, Option<string>)> {
    if rs == [] then map[] else ResultMap(DropLast(rs))[Last(rs).id := (Last(rs).output, Last(rs).error)]
  }

  /** What the agent loop makes of a kept turn. */
  function CommitTurn(ms: seq<Message>, merge: bool, kept: seq<ContentBlock>, rs: seq<CallResult>): seq<Message> {
    AppendResults(AppendAssistant(ms, merge, kept), ResultBlocks(rs))
  }

  // --------------------------------------------------------- faithful turns

  predicate Recordable(b: ContentBlock) {
    b != Text("") && !b.ToolResult?
  }

  /** What the log can carry of a turn: no empty text, no tool result among the
      reply's blocks, and no call id used twice. */
  predicate Faithful(content: seq<ContentBlock>) {
    && AllRecordable(ConversationContent(content))
    && Distinct(Uses(ConversationContent(content)))
  }

  function RecordableOf(blocks: seq<ContentBlock>): seq<ContentBlock> {
    if blocks == [] then []
    else RecordableOf(DropLast(blocks)) + (if Recordable(Last(blocks)) then [Last(blocks)] else [])
  }

  lemma RecordableSnoc(blocks: seq<ContentBlock>, b: ContentBlock)
    ensures RecordableOf(blocks + [b]) == if Recordable(b) then RecordableOf(blocks) + [b] else RecordableOf(blocks)
    ensures Uses(blocks + [b]) == if b.ToolUse? then Uses(blocks) + [b.id] else Uses(blocks)
  {
    assert DropLast(blocks + [b]) == blocks;
  }

  predicate AllRecordable(blocks: seq<ContentBlock>) {
    forall b | b in blocks :: Recordable(b)
  }

  /** Nothing is left out exactly when there is nothing to leave out. */
  lemma {:induction false} RecordableOfAll(blocks: seq<ContentBlock>)
    ensures if AllRecordable(blocks) then RecordableOf(blocks) == blocks else |RecordableOf(blocks)| < |blocks|
  {
    if blocks != [] {
      var front, last := DropLast(blocks), Last(blocks);
      assert blocks == front + [last];
      RecordableOfAll(front);
      RecordableSnoc(front, last);
      assert last in blocks && forall b | b in front :: b in blocks;
      assert forall b | b in blocks :: b in front || b == last;
    }
  }

  /** What the replay takes of one block's events. */
  lemma BlockIsTaken(reader: SeedReader, st: Replayed, boundary: Option<nat>, i: nat, block: ContentBlock)
    requires st.Replayed?
    ensures Steps(reader, st, EmittedBlock(boundary, i, block)) ==
            if IsAbandoned(boundary, i, block) || !Recordable(block) then st
            else st.(accum := st.accum.(blocks := st.accum.blocks + [block],
                                        calls := st.accum.calls + (if block.ToolUse? then [block.id] else [])))
  {
    hide WrapFor, SeedMessages, FlushInto, PushUserTurn;
    var events := EmittedBlock(boundary, i, block);
    if events != [] {
      assert events == [events[0]] && DropLast(events) == [];
      assert Steps(reader, st, events) == Step(reader, st, events[0]);
    }
  }

  /** A replay with the recordable part of `kept` gathered and no result yet. */
  function Gathered(st: Replayed, kept: seq<ContentBlock>): Replayed
    requires st.Replayed?
  {
    Replayed(st.messages, Accum(RecordableOf(kept), Uses(kept), map[]), st.mergeNext)
  }

  lemma BlockIsGathered(reader: SeedReader, st: Replayed, kept: seq<ContentBlock>, boundary: Option<nat>, i: nat,
                        block: ContentBlock)
    requires st.Replayed?
    ensures Steps(reader, Gathered(st, kept), EmittedBlock(boundary, i, block)) ==
            Gathered(st, if IsAbandoned(boundary, i, block) then kept else kept + [block])
  {
    hide Steps, EmittedBlock, RecordableOf, Uses;
    BlockIsTaken(reader, Gathered(st, kept), boundary, i, block);
    RecordableSnoc(kept, block);
  }

  lemma NothingGathered(reader: SeedReader, st: Replayed)
    requires st.Replayed? && st.accum == NOTHING
    ensures Steps(reader, st, []) == st == Gathered(st, [])
  {
    hide Step;
  }

  lemma OneMoreGathered(reader: SeedReader, st: Replayed, events: seq<Event>, kept: seq<ContentBlock>,
                        boundary: Option<nat>, i: nat, block: ContentBlock)
    requires st.Replayed? && Steps(reader, st, events) == Gathered(st, kept)
    ensures Steps(reader, st, events + EmittedBlock(boundary, i, block)) ==
            Gathered(st, if IsAbandoned(boundary, i, block) then kept else kept + [block])
  {
    hide Steps, EmittedBlock, Gathered, IsAbandoned;
    StepsConcat(reader, st, events, EmittedBlock(boundary, i, block));
    BlockIsGathered(reader, st, kept, boundary, i, block);
  }

  /** What the replay gathers from the emitted content. */
  lemma {:induction false} EmittedIsGathered(reader: SeedReader, st: Replayed, content: seq<ContentBlock>,
                                             boundary: Option<nat>, n: nat)
    requires st.Replayed? && st.accum == NOTHING && n <= |content|
    ensures Steps(reader, st, EmittedUpTo(content, boundary, n)) == Gathered(st, KeptUpTo(content, boundary, n))
  {
    hide Step, EmittedBlock, Gathered, IsAbandoned;
    if n == 0 {
      NothingGathered(reader, st);
    } else {
      hide Steps;
      EmittedIsGathered(reader, st, content, boundary, n - 1);
      var kept := KeptUpTo(content, boundary, n - 1);
      OneMoreGathered(reader, st, EmittedUpTo(content, boundary, n - 1), kept, boundary, n - 1, content[n - 1]);
      assert kept + [] == kept;
    }
  }

  lemma {:induction false} ResultsAreGathered(reader: SeedReader, st: Replayed, rs: seq<CallResult>)
    requires st.Replayed? && st.accum.results == map[]
    ensures Steps(reader, st, ResultEvents(rs)) == st.(accum := st.accum.(results := ResultMap(rs)))
  {
    if rs != [] {
      ResultsAreGathered(reader, st, DropLast(rs));
      assert DropLast(ResultEvents(rs)) == ResultEvents(DropLast(rs));
    }
  }

  /** Draining, with distinct ids, gives each call's own result. */
  lemma {:induction false} DrainIsBlocks(rs: seq<CallResult>, results: map<string, (string, Option<string>)>)
    requires Distinct(ResultIds(rs))
    requires forall i | 0 <= i < |rs| :: rs[i].id in results && results[rs[i].id] == (rs[i].output, rs[i].error)
    ensures Drain(ResultIds(rs), results) == ResultBlocks(rs)
  {
    if rs != [] {
      var rest := rs[1..];
      assert ResultIds(rs)[1..] == ResultIds(rest);
      assert ResultBlocks(rs) == [ResultBlock(rs[0].id, rs[0].output, rs[0].error)] + ResultBlocks(rest);
      forall i | 0 <= i < |rest|
        ensures rest[i].id in results - {rs[0].id} &&
                  (results - {rs[0].id})[rest[i].id] == (rest[i].output, rest[i].error) {
        assert ResultIds(rs)[0] != ResultIds(rs)[i + 1];
      }
      DistinctParts(ResultIds(rs));
      DrainIsBlocks(rest, results - {rs[0].id});
    }
  }

  lemma {:induction false} ResultMapHolds(rs: seq<CallResult>)
    requires Distinct(ResultIds(rs))
    ensures forall i | 0 <= i < |rs| ::
            rs[i].id in ResultMap(rs) && ResultMap(rs)[rs[i].id] == (rs[i].output, rs[i].error)
  {
    if rs != [] {
      var front := DropLast(rs);
      DistinctParts(ResultIds(rs));
      assert ResultIds(front) == DropLast(ResultIds(rs));
      ResultMapHolds(front);
      forall i | 0 <= i < |front| ensures rs[i].id != Last(rs).id {
        assert ResultIds(rs)[i] != ResultIds(rs)[|rs| - 1];
      }
    }
  }

  /** The number of calls that draining answers: all of them exactly when no id
      occurs twice. */
  lemma {:induction false} DrainLength(calls: seq<string>, results: map<string, (string, Option<string>)>)
    ensures |Drain(calls, results)| <= |calls|
    ensures |Drain(calls, results)| == |calls| ==> Distinct(calls) && forall id | id in calls :: id in results
  {
    if calls != [] && calls[0] in results {
      DrainLength(calls[1..], results - {calls[0]});
      if |Drain(calls, results)| == |calls| {
        forall i, j | 0 <= i < j < |calls| ensures calls[i] != calls[j] {
          assert calls[j] == calls[1..][j - 1];
          if i > 0 {
            assert calls[i] == calls[1..][i - 1];
          }
        }
        assert calls == [calls[0]] + calls[1..];
      }
    } else if calls != [] {
      DrainLength(calls[1..], results);
    }
  }

  /** The number of blocks in a conversation. */
  function Weight(ms: seq<Message>): nat {
    if ms == [] then 0 else Weight(DropLast(ms)) + |Last(ms).content|
  }

  lemma CommitWeight(ms: seq<Message>, merge: bool, blocks: seq<ContentBlock>, results: seq<ContentBlock>)
    ensures Weight(AppendResults(AppendAssistant(ms, merge, blocks), results)) == Weight(ms) + |blocks| + |results|
  {
    var mid := AppendAssistant(ms, merge, blocks);
    assert Weight(mid) == Weight(ms) + |blocks| by {
      if blocks != [] {
        if merge && EndsWithAssistant(ms) {
          assert DropLast(mid) == DropLast(ms);
        } else {
          assert DropLast(mid) == ms;
        }
      }
    }
    if results != [] {
      assert DropLast(AppendResults(mid, results)) == mid;
    }
  }

  /** The events of one kept turn, from its content to its end. */
  function TurnEvents(content: seq<ContentBlock>, rs: seq<CallResult>, turnIdx: nat): seq<Event> {
    Emitted(content) + ResultEvents(rs) + [TurnEnd(turnIdx, false)]
  }

  lemma TurnReplaysTo(reader: SeedReader, st: Replayed, content: seq<ContentBlock>, rs: seq<CallResult>, turnIdx: nat)
    requires st.Replayed? && st.accum == NOTHING
    ensures var kept := ConversationContent(content);
            Steps(reader, st, TurnEvents(content, rs, turnIdx)) ==
            Replayed(AppendResults(AppendAssistant(st.messages, st.mergeNext, RecordableOf(kept)),
                Drain(Uses(kept), ResultMap(rs))),
                     NOTHING, false)
  {
    var kept := ConversationContent(content);
    EmittedIsGathered(reader, st, content, FallbackBoundary(content), |content|);
    var gathered := st.(accum := Accum(RecordableOf(kept), Uses(kept), map[]));
    ResultsAreGathered(reader, gathered, rs);
    StepsConcat(reader, st, Emitted(content), ResultEvents(rs));
    assert DropLast(TurnEvents(content, rs, turnIdx)) == Emitted(content) + ResultEvents(rs);
  }

  /** The inverse claimed for one turn, with its exact limits: replaying the
      turn's events gives the messages that the agent loop adds, if and only if
      the reply is faithful. An empty text block is skipped by the replay, a
      tool result block is never written, and two calls with one id share one
      result; nothing else is lost. */
  lemma TurnRoundTripExactly(reader: SeedReader, st: Replayed, content: seq<ContentBlock>, rs: seq<CallResult>,
                             turnIdx: nat)
    requires st.Replayed? && st.accum == NOTHING
    requires ResultIds(rs) == Uses(ConversationContent(content))
    ensures (Conversed(Steps(reader, st, TurnEvents(content, rs, turnIdx))) ==
             Success(CommitTurn(st.messages, st.mergeNext, ConversationContent(content), rs)))
            <==> Faithful(content)
  {
    var kept := ConversationContent(content);
    var drained := Drain(Uses(kept), ResultMap(rs));
    TurnReplaysTo(reader, st, content, rs, turnIdx);
    RecordableOfAll(kept);
    DrainLength(Uses(kept), ResultMap(rs));
    CommitWeight(st.messages, st.mergeNext, RecordableOf(kept), drained);
    CommitWeight(st.messages, st.mergeNext, kept, ResultBlocks(rs));
    if Faithful(content) {
      ResultMapHolds(rs);
      DrainIsBlocks(rs, ResultMap(rs));
    }
  }
}

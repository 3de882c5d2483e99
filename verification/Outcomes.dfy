/**
 Classifying a provider reply, and the part of a reply that the conversation
 keeps.
 */
module Outcomes {
  import opened Wrappers
  import opened Conversation

  datatype StopReason =
    | EndTurn | ToolUseStop | StopSequence
    | MaxTokensStop | ContextWindowExceededStop | PauseTurnStop | RefusalStop | SafetyStop
    | MalformedToolCallStop | IncompleteStop | Unreported | Unrecognized

  datatype ErrorClass =
    | RateLimited | Overloaded | Server | Timeout | ContextOverflow | Quota | NotFound
    | PolicyError | Auth | Permission | InvalidRequest | TooLarge | UnrecognizedError

  datatype OutcomeClass =
    | PauseTurn | MaxTokens | ContextWindowExceeded | Refusal | Safety | MalformedToolCall
    | Incomplete | EmptyReply | UnrecognizedStop | UnreportedStop
    | ProviderFailure(error: ErrorClass)

  datatype Severity = Info | Warning | Error

  /** What the agent loop reads of a provider reply. `truncatedTool` and
      `malformedTool` stand for the stop's wire details of those names, and
      `servedBy` for a server-side fallback model that answered instead. */
  datatype Reply = Reply(
    content: seq<ContentBlock>,
    stop: StopReason,
    truncatedTool: bool,
    malformedTool: (string, string),
    servedBy: Option<string>,
    inputTokens: nat)

  datatype Outcome = Outcome(kind: OutcomeClass, title: string, truncatedTool: bool)

  function SeverityOf(c: OutcomeClass): Severity {
    match c
    case PauseTurn => Info
    case UnrecognizedStop | UnreportedStop => Warning
    case _ => Error
  }

  // ------------------------------------------------ server-side fallback cut

  /** The index of the last `Fallback` block. */
  function FallbackBoundary(content: seq<ContentBlock>): (r: Option<nat>)
    ensures r.Some? ==>
              && r.value < |content| && content[r.value].Fallback?
              && forall j | r.value < j < |content| :: !content[j].Fallback?
    ensures r.None? ==> forall j | 0 <= j < |content| :: !content[j].Fallback?
  {
    if content == [] then None
    else if Last(content).Fallback? then Some(|content| - 1)
    else FallbackBoundary(DropLast(content))
  }

  /** A tool call or a reasoning block before the boundary belongs to the model
      that the provider swapped out: it is shown, never run and never kept. */
  predicate IsAbandoned(boundary: Option<nat>, i: nat, block: ContentBlock) {
    boundary.Some? && i < boundary.value && (block.ToolUse? || block.Reasoning?)
  }

  /** A block of a reply is abandoned exactly when it is a tool call or reasoning
      and some fallback block follows it. */
  lemma AbandonedMeaning(content: seq<ContentBlock>, i: nat)
    requires i < |content|
    ensures IsAbandoned(FallbackBoundary(content), i, content[i]) <==>
            (content[i].ToolUse? || content[i].Reasoning?) && exists j | i < j < |content| :: content[j].Fallback?
  {
    var boundary := FallbackBoundary(content);
    if boundary.Some? && i < boundary.value {
      assert content[boundary.value].Fallback?;
    }
  }

  /** The blocks among the first `n` that the conversation keeps. */
  function KeptUpTo(content: seq<ContentBlock>, boundary: Option<nat>, n: nat): seq<ContentBlock>
    requires n <= |content|
  {
    if n == 0 then []
    else KeptUpTo(content, boundary, n - 1) +
         (if IsAbandoned(boundary, n - 1, content[n - 1]) then [] else [content[n - 1]])
  }

  /** A reply's content as it joins the conversation. */
  function ConversationContent(content: seq<ContentBlock>): seq<ContentBlock> {
    KeptUpTo(content, FallbackBoundary(content), |content|)
  }

  predicate UsableBlock(boundary: Option<nat>, i: nat, block: ContentBlock) {
    match block
    case Text(t) => !Blank(t)
    case ToolUse(_, _, _) => !IsAbandoned(boundary, i, block)
    case _ => false
  }

  /** Non-blank text, or a tool call that will be run. */
  predicate HasUsableContent(content: seq<ContentBlock>) {
    exists i | 0 <= i < |content| :: UsableBlock(FallbackBoundary(content), i, content[i])
  }

  // --------------------------------------------------------- classification

  /** The outcome of a reply; `None` for a normal one. */
  function ClassifyReply(r: Reply): Option<Outcome> {
    match r.stop
    case EndTurn | ToolUseStop | StopSequence =>
      if HasUsableContent(r.content) then None else Some(Outcome(EmptyReply, "empty reply", false))
    case Unrecognized =>
      if !HasUsableContent(r.content) then Some(Outcome(EmptyReply, "empty reply", false))
      else Some(Outcome(UnrecognizedStop, "unrecognized stop reason", false))
    case Unreported =>
      if !HasUsableContent(r.content) then Some(Outcome(EmptyReply, "empty reply", false))
      else Some(Outcome(UnreportedStop, "no stop reason reported", false))
    case PauseTurnStop => Some(Outcome(PauseTurn, "paused by the provider (server tool loop)", false))
    case MaxTokensStop => Some(Outcome(MaxTokens, "truncated: output limit", r.truncatedTool))
    case ContextWindowExceededStop => Some(Outcome(ContextWindowExceeded, "truncated: context window full", false))
    case RefusalStop => Some(Outcome(Refusal, "refused", false))
    case SafetyStop => Some(Outcome(Safety, "blocked by a safety filter", false))
    case MalformedToolCallStop => Some(Outcome(MalformedToolCall, "malformed tool call", false))
    case IncompleteStop => Some(Outcome(Incomplete, "incomplete reply", false))
  }

  // ------------------------------------------------------- properties of both

  /** Some block of `blocks` is text that is not blank. */
  ghost predicate Speaks(blocks: seq<ContentBlock>) {
    exists b | b in blocks :: b.Text? && !Blank(b.text)
  }

  /** The kept blocks are those at the places that are not abandoned, in the
      order of the reply, each once. */
  lemma {:induction false} KeptInOrder(content: seq<ContentBlock>, boundary: Option<nat>, n: nat)
    returns (picked: seq<nat>)
    requires n <= |content|
    ensures |picked| == |KeptUpTo(content, boundary, n)|
    ensures forall k | 0 <= k < |picked| ::
              picked[k] < n && content[picked[k]] == KeptUpTo(content, boundary, n)[k]
    ensures forall j, k | 0 <= j < k < |picked| :: picked[j] < picked[k]
    ensures forall i | 0 <= i < n :: i in picked <==> !IsAbandoned(boundary, i, content[i])
  {
    picked := [];
    if n > 0 {
      picked := KeptInOrder(content, boundary, n - 1);
      if !IsAbandoned(boundary, n - 1, content[n - 1]) {
        picked := picked + [n - 1];
      }
    }
  }

  /** Exactly the blocks that are not abandoned are kept, in order: the kept
      prefix grows by `content[i]` at `i` or skips it. */
  lemma {:induction false} KeptMembers(content: seq<ContentBlock>, boundary: Option<nat>, n: nat)
    requires n <= |content|
    ensures forall b :: b in KeptUpTo(content, boundary, n) <==>
                        exists i | 0 <= i < n :: content[i] == b && !IsAbandoned(boundary, i, b)
  {
    if n > 0 {
      KeptMembers(content, boundary, n - 1);
      var shorter, longer := KeptUpTo(content, boundary, n - 1), KeptUpTo(content, boundary, n);
      forall b ensures b in longer <==> exists i | 0 <= i < n :: content[i] == b && !IsAbandoned(boundary, i, b) {
        if b in longer && b !in shorter {
          assert content[n - 1] == b;
        }
      }
    }
  }

  lemma {:induction false} UsesOfMember(blocks: seq<ContentBlock>, b: ContentBlock)
    requires b in blocks && b.ToolUse?
    ensures Uses(blocks) != []
  {
    if Last(blocks) != b {
      assert b in DropLast(blocks);
      UsesOfMember(DropLast(blocks), b);
    }
  }

  /** The content half of the success rule: a reply with no outcome, or only a
      warning, that calls no tool leaves non-blank text in the conversation. */
  lemma QuietReplySpeaks(r: Reply)
    requires ClassifyReply(r).None? || SeverityOf(ClassifyReply(r).value.kind) == Warning
    requires Uses(ConversationContent(r.content)) == []
    ensures Speaks(ConversationContent(r.content))
  {
    var boundary := FallbackBoundary(r.content);
    assert HasUsableContent(r.content);
    var i :| 0 <= i < |r.content| && UsableBlock(boundary, i, r.content[i]);
    KeptMembers(r.content, boundary, |r.content|);
    assert r.content[i] in ConversationContent(r.content);
    if r.content[i].ToolUse? {
      UsesOfMember(ConversationContent(r.content), r.content[i]);
    }
  }

  /** A reply is empty exactly when it stopped normally, or in a way nobody
      recognizes, and holds neither text nor a tool call to run. */
  lemma EmptyReplyExactly(r: Reply)
    ensures ClassifyReply(r) == Some(Outcome(EmptyReply, "empty reply", false)) <==>
            && r.stop in {EndTurn, ToolUseStop, StopSequence, Unrecognized, Unreported}
            && !Speaks(r.content)
            && Uses(ConversationContent(r.content)) == []
  {
    var boundary := FallbackBoundary(r.content);
    var kept := ConversationContent(r.content);
    KeptMembers(r.content, boundary, |r.content|);
    if !HasUsableContent(r.content) {
      forall i | 0 <= i < |r.content| ensures !UsableBlock(boundary, i, r.content[i]) {}
      forall b | b in kept ensures !b.ToolUse? {}
      NoUses(kept);
    } else {
      var i :| 0 <= i < |r.content| && UsableBlock(boundary, i, r.content[i]);
      if r.content[i].ToolUse? {
        UsesOfMember(kept, r.content[i]);
      }
    }
  }

  lemma {:induction false} NoUses(blocks: seq<ContentBlock>)
    requires forall b | b in blocks :: !b.ToolUse?
    ensures Uses(blocks) == []
  {
    if blocks != [] {
      forall b | b in DropLast(blocks) ensures !b.ToolUse? {}
      NoUses(DropLast(blocks));
    }
  }
}

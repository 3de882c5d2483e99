/**
 Making a conversation shorter: dropping the oldest exchange of a request, and
 replacing the middle of the history by a summary.
 */
module Compaction {
  import opened Wrappers
  import opened Conversation
  import opened Outcomes
  import opened Transcript

  // ------------------------------------------------------------------ sizes

  function BlockChars(b: ContentBlock): nat {
    match b
    case Text(text) => |text|
    case ToolUse(_, name, input) => |name| + |input|
    case ToolResult(_, content, _) => |content|
    case Reasoning(_, _, _, raw) => |raw|
    case Unknown(_) | Fallback(_, _) => 0
  }

  function ContentChars(content: seq<ContentBlock>): nat {
    if content == [] then 0 else ContentChars(DropLast(content)) + BlockChars(Last(content))
  }

  function MessageChars(m: Message): nat {
    ContentChars(m.content)
  }

  function TotalChars(ms: seq<Message>): nat {
    if ms == [] then 0 else MessageChars(ms[0]) + TotalChars(ms[1..])
  }

  /** The bytes that a block brings to the model. */
  function Payload(b: ContentBlock): string {
    match b
    case Text(text) => text
    case ToolUse(_, name, input) => name + input
    case ToolResult(_, content, _) => content
    case Reasoning(_, _, _, raw) => raw
    case Unknown(_) | Fallback(_, _) => ""
  }

  function Payloads(content: seq<ContentBlock>): string {
    if content == [] then "" else Payload(content[0]) + Payloads(content[1..])
  }

  function Written(ms: seq<Message>): string {
    if ms == [] then "" else Written(DropLast(ms)) + Payloads(Last(ms).content)
  }

  /** The size of a conversation is the length of everything in it, written out. */
  lemma {:induction false} TotalCharsIsWritten(ms: seq<Message>)
    ensures TotalChars(ms) == |Written(ms)|
  {
    if ms != [] {
      TotalCharsIsWritten(DropLast(ms));
      ContentIsPayloads(Last(ms).content);
      assert ms == DropLast(ms) + [Last(ms)];
      TotalCharsConcat(DropLast(ms), [Last(ms)]);
      assert TotalChars([Last(ms)]) == MessageChars(Last(ms)) + TotalChars([]) by {
        assert [Last(ms)][1..] == [];
      }
    }
  }

  lemma {:induction false} ContentIsPayloads(content: seq<ContentBlock>)
    ensures ContentChars(content) == |Payloads(content)|
  {
    if content != [] {
      ContentIsPayloads(content[1..]);
      ContentCharsConcat([content[0]], content[1..]);
      assert content == [content[0]] + content[1..];
      assert DropLast([content[0]]) == [];
    }
  }

  lemma {:induction false} ContentCharsConcat(a: seq<ContentBlock>, b: seq<ContentBlock>)
    ensures ContentChars(a + b) == ContentChars(a) + ContentChars(b)
  {
    if b == [] {
      assert a + b == a;
    } else {
      assert DropLast(a + b) == a + DropLast(b);
      ContentCharsConcat(a, DropLast(b));
    }
  }

  // ------------------------------------------------------------------- trim

  /** Whether an assistant/user exchange can be dropped right after the opening
      message without touching the last message. */
  predicate CanTrim(ms: seq<Message>) {
    |ms| >= 4 && ms[1].role.Assistant? && ms[2].role.User?
  }

  function TrimOldestExchange(ms: seq<Message>): seq<Message> {
    if CanTrim(ms) then [ms[0]] + ms[3..] else ms
  }

  /** A plain user message ahead of a suffix that opens with no tool result. */
  lemma SpliceKeeps(first: Message, ms: seq<Message>, k: nat)
    requires Paired(ms) && k < |ms| && Answers(ms[k].content) == []
    requires first.role.User? && Uses(first.content) == [] && Answers(first.content) == []
    ensures WellFormed([first] + ms[k..])
  {
    var after := [first] + ms[k..];
    forall i | 0 <= i < |after| ensures ProperRole(after[i]) {
      if i > 0 {
        assert ProperRole(ms[k + i - 1]);
      }
    }
    forall i | 0 <= i <= |after| ensures AnswersAt(after, i) == UsesAt(after, i - 1) {
      if i > 1 {
        assert AnswersAt(ms, k + i - 1) == UsesAt(ms, k + i - 2);
      }
    }
  }

  lemma TrimShape(ms: seq<Message>)
    requires CanTrim(ms)
    ensures |ms| >= 4 && ms[1].role.Assistant? && ms[2].role.User? && TrimOldestExchange(ms) == [ms[0]] + ms[3..]
  {
  }

  /** Trimming drops one whole exchange: the opening and the last message stay,
      and no call is cut from its result. */
  lemma TrimKeeps(ms: seq<Message>)
    requires WellFormed(ms) && CanTrim(ms)
    ensures WellFormed(TrimOldestExchange(ms))
    ensures |TrimOldestExchange(ms)| == |ms| - 2
    ensures TrimOldestExchange(ms)[0] == ms[0] && Last(TrimOldestExchange(ms)) == Last(ms)
    ensures forall i | 3 <= i < |ms| :: TrimOldestExchange(ms)[i - 2] == ms[i]
    ensures RepliesApart(ms) ==> RepliesApart(TrimOldestExchange(ms))
  {
    TrimShape(ms);
    hide CanTrim, TrimOldestExchange, RepliesApart;
    if RepliesApart(ms) {
      SuffixKeepsApart(ms[0], ms, 3);
    }
    assert ProperRole(ms[0]) && ProperRole(ms[1]) && ProperRole(ms[2]);
    assert AnswersAt(ms, 0) == UsesAt(ms, -1);
    assert AnswersAt(ms, 1) == UsesAt(ms, 0);
    assert AnswersAt(ms, 3) == UsesAt(ms, 2);
    SpliceKeeps(ms[0], ms, 3);
  }

  // -------------------------------------------------------------- partition

  predicate HoldsToolResult(m: Message) {
    m.role.User? && exists b | b in m.content :: b.ToolResult?
  }

  predicate HoldsToolUse(m: Message) {
    m.role.Assistant? && exists b | b in m.content :: b.ToolUse?
  }

  /** Where the verbatim part starts when the walk has come down to `from`:
      at least the last two messages, and never below index 1. */
  function WalkBack(ms: seq<Message>, budget: nat, from: nat): nat
    requires 1 <= from <= |ms|
  {
    if from == 1 then 1
    else if from <= |ms| - 2 && TotalChars(ms[from - 1..]) > budget then from
    else WalkBack(ms, budget, from - 1)
  }

  /** The start of the verbatim part, moved back by one when it would open with
      tool results. */
  function RecentStart(ms: seq<Message>, budget: nat): nat
    requires |ms| > 2
  {
    var k := WalkBack(ms, budget, |ms|);
    if 1 < k < |ms| && HoldsToolResult(ms[k]) && HoldsToolUse(ms[k - 1]) then k - 1 else k
  }

  /** The cut `(middle, recent)`; `None` when there is no middle to summarise. */
  function Partition(ms: seq<Message>, budget: nat): Option<(nat, nat)> {
    if |ms| <= 2 || RecentStart(ms, budget) <= 1 then None else Some((1, RecentStart(ms, budget)))
  }

  lemma {:induction false} TotalCharsConcat(a: seq<Message>, b: seq<Message>)
    ensures TotalChars(a + b) == TotalChars(a) + TotalChars(b)
  {
    if a == [] {
      assert a + b == b;
    } else {
      assert (a + b)[1..] == a[1..] + b;
      TotalCharsConcat(a[1..], b);
    }
  }

  method PartitionForCompaction(ms: seq<Message>, budget: nat) returns (cut: Option<(nat, nat)>)
    ensures cut == Partition(ms, budget)
  {
    hide MessageChars, HoldsToolResult, HoldsToolUse;
    if |ms| <= 2 {
      return None;
    }
    var accumulated, recentStart := 0, |ms|;
    var i := |ms|;
    while i > 1
      invariant 1 <= i <= |ms|
      invariant recentStart == i
      invariant accumulated == TotalChars(ms[i..])
      invariant WalkBack(ms, budget, |ms|) == WalkBack(ms, budget, i)
    {
      i := i - 1;
      var chars := MessageChars(ms[i]);
      assert ms[i..][1..] == ms[i + 1..];
      if recentStart <= |ms| - 2 && accumulated + chars > budget {
        break;
      }
      accumulated := accumulated + chars;
      recentStart := i;
    }
    if recentStart > 1 && recentStart < |ms| && HoldsToolResult(ms[recentStart]) && HoldsToolUse(ms[recentStart - 1]) {
      recentStart := recentStart - 1;
    }
    if recentStart <= 1 {
      return None;
    }
    cut := Some((1, recentStart));
  }

  lemma {:induction false} WalkBackMeaning(ms: seq<Message>, budget: nat, from: nat)
    requires |ms| > 2 && 1 <= from <= |ms|
    requires from <= |ms| - 2 ==> TotalChars(ms[from..]) <= Bound(ms, budget)
    ensures var k := WalkBack(ms, budget, from);
            && 1 <= k <= from && (k <= |ms| - 2)
            && TotalChars(ms[k..]) <= Bound(ms, budget)
            && (k > 1 ==> TotalChars(ms[k - 1..]) > budget)
    decreases from
  {
    if from > 1 && !(from <= |ms| - 2 && TotalChars(ms[from - 1..]) > budget) {
      WalkBackMeaning(ms, budget, from - 1);
    }
  }

  /** The budget, or what the last two messages hold if that is more. */
  function Bound(ms: seq<Message>, budget: nat): nat
    requires |ms| >= 2
  {
    var two := TotalChars(ms[|ms| - 2..]);
    if two > budget then two else budget
  }

  /** What the cut keeps. At least the last two messages, as an exact suffix;
      at most `Bound` characters before the step that protects a pair, which
      moves the cut by at most one message; and as much as the budget lets. */
  lemma PartitionKeepsWithinBudget(ms: seq<Message>, budget: nat)
    requires Partition(ms, budget).Some?
    ensures var k := Partition(ms, budget).value.1;
            && 2 <= k <= |ms| - 2
            && exists k0 | k <= k0 <= k + 1 && k0 <= |ms| - 2 ::
                 && TotalChars(ms[k0..]) <= Bound(ms, budget)
                 && TotalChars(ms[k0 - 1..]) > budget
                 && (k < k0 <==> HoldsToolResult(ms[k0]) && HoldsToolUse(ms[k0 - 1]))
                 && TotalChars(ms[k..]) <= Bound(ms, budget) + (if k < k0 then MessageChars(ms[k]) else 0)
  {
    WalkBackMeaning(ms, budget, |ms|);
    var k0 := WalkBack(ms, budget, |ms|);
    var k := Partition(ms, budget).value.1;
    if k < k0 {
      assert ms[k..][1..] == ms[k0..];
    }
    assert k <= k0 <= k + 1 && k0 <= |ms| - 2;
  }

  lemma {:induction false} AnswersHasResult(content: seq<ContentBlock>)
    requires Answers(content) != []
    ensures exists b | b in content :: b.ToolResult?
  {
    if !Last(content).ToolResult? {
      AnswersHasResult(DropLast(content));
    }
  }

  lemma {:induction false} UsesHasUse(content: seq<ContentBlock>)
    requires Uses(content) != []
    ensures exists b | b in content :: b.ToolUse?
  {
    if !Last(content).ToolUse? {
      UsesHasUse(DropLast(content));
    }
  }

  /** The pair-protection step is enough: in a paired history the verbatim part
      never opens with results whose calls were summarised away. */
  lemma PartitionNeverSplitsAPair(ms: seq<Message>, budget: nat)
    requires Paired(ms) && Partition(ms, budget).Some?
    ensures 2 <= Partition(ms, budget).value.1 <= |ms| - 2
    ensures Answers(ms[Partition(ms, budget).value.1].content) == []
  {
    PartitionKeepsWithinBudget(ms, budget);
    hide TotalChars, Uses, Answers;
    var k0 := WalkBack(ms, budget, |ms|);
    hide WalkBack;
    if HoldsToolResult(ms[k0]) && HoldsToolUse(ms[k0 - 1]) {
      CallsAreNoAnswers(ms, k0 - 1);
    } else {
      UnprotectedAnswersNothing(ms, k0);
    }
  }

  /** An assistant message answers nothing. */
  lemma CallsAreNoAnswers(ms: seq<Message>, k: nat)
    requires Paired(ms) && k < |ms| && HoldsToolUse(ms[k])
    ensures Answers(ms[k].content) == []
  {
    assert ProperRole(ms[k]);
  }

  /** A message that the protection step leaves in place answers nothing. */
  lemma UnprotectedAnswersNothing(ms: seq<Message>, k: nat)
    requires Paired(ms) && 1 <= k < |ms| && !(HoldsToolResult(ms[k]) && HoldsToolUse(ms[k - 1]))
    ensures Answers(ms[k].content) == []
  {
    assert ProperRole(ms[k]) && ProperRole(ms[k - 1]);
    assert AnswersAt(ms, k) == UsesAt(ms, k - 1);
    if Answers(ms[k].content) != [] {
      AnswersHasResult(ms[k].content);
      UsesHasUse(ms[k - 1].content);
    }
  }

  // ------------------------------------------------------------- compaction

  const SUMMARY_MAX_TOKENS: nat := 8192
  const REATTACH_MARKER: string := "<skills-in-use>"
  const SUMMARY_HEADING: string := "\n\n## Summary of prior work\n"
  const SUMMARY_INSTRUCTION: string := "The conversation above is being compacted."

  /** Tokens per character, from what the provider charged for the history. */
  function TokensPerChar(totalChars: nat, lastInputTokens: nat): (r: real)
    ensures r >= 0.25
  {
    var measured := lastInputTokens as real / (if totalChars > 1 then totalChars else 1) as real;
    if measured > 0.25 then measured else 0.25
  }

  /** The tokens of what survives outside the verbatim part. */
  function FixedTokens(ms: seq<Message>, perChar: real): real {
    (if ms == [] then 0 else MessageChars(ms[0])) as real * perChar + SUMMARY_MAX_TOKENS as real
  }

  function HalfOf(threshold: nat): real {
    (threshold / 2) as real
  }

  function RecentTokens(ms: seq<Message>, threshold: nat, perChar: real): (r: real)
    ensures r >= 0.0
  {
    var target := HalfOf(threshold) - FixedTokens(ms, perChar);
    if target > 0.0 then target else 0.0
  }

  function RecentBudget(ms: seq<Message>, threshold: nat, lastInputTokens: nat): nat {
    var perChar := TokensPerChar(TotalChars(ms), lastInputTokens);
    (RecentTokens(ms, threshold, perChar) / perChar).Floor as nat
  }

  /** What the provider charged for the history, spread over its characters; never
      less than a quarter token each. */
  lemma TokensPerCharMeaning(totalChars: nat, lastInputTokens: nat)
    ensures var perChar, chars := TokensPerChar(totalChars, lastInputTokens), Largest(totalChars, 1);
            && perChar >= 0.25 && perChar * chars as real >= lastInputTokens as real
            && (perChar == 0.25 || perChar * chars as real == lastInputTokens as real)
  {
    var chars := Largest(totalChars, 1);
    var measured := lastInputTokens as real / chars as real;
    assert measured * chars as real == lastInputTokens as real;
    if measured <= 0.25 {
      assert (0.25 - measured) * chars as real >= 0.0;
    }
  }

  function Largest(a: nat, b: nat): nat {
    if a > b then a else b
  }

  /** The budget is the largest number of characters that fits half the threshold
      behind the opening message and the summary; none when they fill it. */
  lemma RecentBudgetIsLargest(ms: seq<Message>, threshold: nat, lastInputTokens: nat)
    ensures var perChar := TokensPerChar(TotalChars(ms), lastInputTokens);
            var fixed, half := FixedTokens(ms, perChar), HalfOf(threshold);
            var budget := RecentBudget(ms, threshold, lastInputTokens);
            if fixed > half then budget == 0
            else fixed + budget as real * perChar <= half < fixed + (budget + 1) as real * perChar
  {
    hide TotalChars, TokensPerChar, FixedTokens, HalfOf;
    var perChar := TokensPerChar(TotalChars(ms), lastInputTokens);
    FloorIsLargest(RecentTokens(ms, threshold, perChar), perChar);
  }

  lemma FloorIsLargest(tokens: real, perChar: real)
    requires tokens >= 0.0 && perChar >= 0.25
    ensures var n := (tokens / perChar).Floor; n as real * perChar <= tokens < (n + 1) as real * perChar
    ensures tokens == 0.0 ==> (tokens / perChar).Floor == 0
  {
    var q := tokens / perChar;
    assert q * perChar == tokens;
    var n := q.Floor;
    assert n as real <= q < (n + 1) as real;
    assert (q - n as real) * perChar >= 0.0;
    assert ((n + 1) as real - q) * perChar > 0.0;
  }

  function TextsOf(content: seq<ContentBlock>): seq<string> {
    if content == [] then []
    else TextsOf(DropLast(content)) + (if Last(content).Text? then [Last(content).text] else [])
  }

  predicate StartsWith(s: string, prefix: string) {
    prefix <= s
  }

  /** The first text whatever it is, and the others that are not a block of
      re-attached skills. */
  function TaskTexts(texts: seq<string>): seq<string> {
    if texts == [] then []
    else TaskTexts(DropLast(texts)) +
         (if |texts| == 1 || !StartsWith(Last(texts), REATTACH_MARKER) then [Last(texts)] else [])
  }

  function TaskText(m: Message): string {
    Join(TaskTexts(TextsOf(m.content)), "\n")
  }

  function Rebuilt(task: string, summary: string, recent: seq<Message>): seq<Message> {
    [UserText(task + SUMMARY_HEADING + summary)] + recent
  }

  datatype CompactionResult =
    | NothingToSummarise
    | CallFailed
    | Rejected
    | Done(messages: seq<Message>, summarized: nat)

  /** The history sent to the summariser: all but the verbatim part, then the
      instruction as a user turn of its own. */
  function SummaryRequest(ms: seq<Message>, recentStart: nat): seq<Message>
    requires recentStart <= |ms|
  {
    PushUserTurn(ms[..recentStart], SUMMARY_INSTRUCTION)
  }

  function SummaryOf(answer: Reply): string {
    Join(TextsOf(answer.content), "\n")
  }

  /** Whether an answer may not replace the history it was to condense. */
  predicate Unusable(answer: Reply) {
    var o := ClassifyReply(answer);
    (o.Some? && SeverityOf(o.value.kind) == Severity.Error && o.value.kind != EmptyReply) || Blank(SummaryOf(answer))
  }

  /** Compact `ms` with the summariser's `answer` (`None` when its call failed
      or was not made). */
  function CompactMessages(ms: seq<Message>, threshold: nat, lastInputTokens: nat,
                           answer: Option<Reply>): CompactionResult {
    match Partition(ms, RecentBudget(ms, threshold, lastInputTokens))
    case None => NothingToSummarise
    case Some((middle, recent)) =>
      if answer.None? then CallFailed
      else if Unusable(answer.value) then Rejected
      else if recent <= |ms| then
        Done(Rebuilt(TaskText(ms[0]), SummaryOf(answer.value), ms[recent..]), recent - middle)
      else NothingToSummarise
  }

  /** How a compacted history relates to the one it replaces: one user message
      of plain text, then an exact suffix of at least two messages that opens
      with no tool result. */
  ghost predicate Compacts(before: seq<Message>, after: seq<Message>) {
    exists k | 2 <= k <= |before| - 2 :: CompactsAt(before, after, k)
  }

  ghost predicate CompactsAt(before: seq<Message>, after: seq<Message>, k: nat)
    requires 2 <= k <= |before| - 2
  {
    && after != [] && after[1..] == before[k..]
    && Answers(before[k].content) == []
    && after[0].role.User? && forall b | b in after[0].content :: b.Text?
  }

  lemma {:induction false} PlainTextHasNoTools(content: seq<ContentBlock>)
    requires forall b | b in content :: b.Text?
    ensures Uses(content) == [] && Answers(content) == []
  {
    if content != [] {
      assert Last(content) in content;
      assert forall b | b in DropLast(content) :: b in content;
      PlainTextHasNoTools(DropLast(content));
    }
  }

  /** A compacted history is well formed and ends as it did. */
  lemma CompactsKeeps(before: seq<Message>, after: seq<Message>)
    requires WellFormed(before) && Compacts(before, after)
    ensures WellFormed(after) && 3 <= |after| < |before|
    ensures Last(after) == Last(before)
  {
    var k :| 2 <= k <= |before| - 2 && CompactsAt(before, after, k);
    PlainTextHasNoTools(after[0].content);
    SpliceKeeps(after[0], before, k);
    assert after == [after[0]] + after[1..];
  }

  lemma CompactsKeepsApart(before: seq<Message>, after: seq<Message>)
    requires Compacts(before, after) && RepliesApart(before)
    ensures RepliesApart(after)
  {
    var k :| 2 <= k <= |before| - 2 && CompactsAt(before, after, k);
    SuffixKeepsApart(after[0], before, k);
    assert after == [after[0]] + after[1..];
  }

  // -------------------------------------------------------- the opening text

  /** `text` stands in `s` at `at`. */
  predicate StandsHere(s: string, text: string, at: nat) {
    at + |text| <= |s| && s[at..at + |text|] == text
  }

  /** The texts stand in `s` at `at`, in order and apart, from its first
      character to its last. */
  ghost predicate StandAt(s: string, texts: seq<string>, at: seq<nat>) {
    && |at| == |texts|
    && (forall k | 0 <= k < |texts| :: StandsHere(s, texts[k], at[k]))
    && (forall k, l | 0 <= k < l < |texts| :: at[k] + |texts[k]| < at[l])
    && (texts != [] ==> at[0] == 0 && Last(at) + |Last(texts)| == |s|)
  }

  /** `picked` are the places of `chosen`, in order, and the blocks there are
      texts. */
  ghost predicate PicksTexts(content: seq<ContentBlock>, chosen: set<nat>, picked: seq<nat>) {
    && (forall i :: i in chosen <==> i in picked)
    && (forall k | 0 <= k < |picked| :: picked[k] < |content| && content[picked[k]].Text?)
    && (forall k, l | 0 <= k < l < |picked| :: picked[k] < picked[l])
  }

  function TextsAt(content: seq<ContentBlock>, picked: seq<nat>): seq<string>
    requires forall k | 0 <= k < |picked| :: picked[k] < |content| && content[picked[k]].Text?
  {
    seq(|picked|, k requires 0 <= k < |picked| => content[picked[k]].text)
  }

  /** The blocks of `content` at the chosen places, all of them text, stand in
      `s`, in order and apart, from its first character to its last. */
  ghost predicate Stands(s: string, content: seq<ContentBlock>, chosen: set<nat>) {
    exists picked, at :: PicksTexts(content, chosen, picked) && StandAt(s, TextsAt(content, picked), at)
  }

  /** The places of the text blocks. */
  function TextPlaces(content: seq<ContentBlock>): set<nat> {
    set i | 0 <= i < |content| && content[i].Text?
  }

  /** Those of the task: the first text whatever it is, and the others that are
      not a block of re-attached skills. */
  function TaskPlaces(content: seq<ContentBlock>): set<nat> {
    set i | 0 <= i < |content| && IsTaskText(content, i)
  }

  predicate IsTaskText(content: seq<ContentBlock>, i: nat)
    requires i < |content|
  {
    content[i].Text? &&
    (!StartsWith(content[i].text, REATTACH_MARKER) || forall j | 0 <= j < i :: !content[j].Text?)
  }

  /** What the opening of a compacted history says: the task's own texts, the
      heading, and behind it every text of the summariser's answer. */
  ghost predicate Opens(text: string, task: Message, answer: Reply) {
    exists n: nat | n + |SUMMARY_HEADING| <= |text| ::
      && text[n..n + |SUMMARY_HEADING|] == SUMMARY_HEADING
      && Stands(text[..n], task.content, TaskPlaces(task.content))
      && Stands(text[n + |SUMMARY_HEADING|..], answer.content, TextPlaces(answer.content))
  }

  lemma {:induction false} JoinedStand(texts: seq<string>) returns (at: seq<nat>)
    ensures StandAt(Join(texts, "\n"), texts, at)
  {
    hide StandAt;
    if |texts| <= 1 {
      at := seq(|texts|, _ => 0);
      FewStand(texts);
    } else {
      var front, last := DropLast(texts), Last(texts);
      var before := JoinedStand(front);
      at := before + [|Join(front, "\n")| + 1];
      OneMoreStands(Join(front, "\n"), front, before, last);
      assert texts == front + [last];
    }
  }

  lemma FewStand(texts: seq<string>)
    requires |texts| <= 1
    ensures StandAt(Join(texts, "\n"), texts, seq(|texts|, _ => 0))
  {
    if |texts| == 1 {
      assert StandsHere(texts[0], texts[0], 0);
    }
  }

  lemma HereStays(s: string, more: string, text: string, at: nat)
    requires StandsHere(s, text, at) && s <= more
    ensures StandsHere(more, text, at)
  {
    assert more[..|s|] == s;
  }

  lemma OneMoreStands(s: string, texts: seq<string>, at: seq<nat>, last: string)
    requires texts != [] && StandAt(s, texts, at)
    ensures StandAt(s + "\n" + last, texts + [last], at + [|s| + 1])
  {
    var more, longer, places := s + "\n" + last, texts + [last], at + [|s| + 1];
    forall k | 0 <= k < |longer| ensures StandsHere(more, longer[k], places[k]) {
      if k < |texts| {
        HereStays(s, more, texts[k], at[k]);
      }
    }
    hide StandsHere;
    forall k, l | 0 <= k < l < |longer| ensures places[k] + |longer[k]| < places[l] {
      if l == |texts| {
        EndsWithin(s, texts, at, k);
      }
    }
  }

  lemma EndsWithin(s: string, texts: seq<string>, at: seq<nat>, k: nat)
    requires StandAt(s, texts, at) && k < |texts|
    ensures at[k] + |texts[k]| <= |s|
  {
    assert StandsHere(s, texts[k], at[k]);
  }

  lemma NothingPicked(content: seq<ContentBlock>)
    requires content == []
    ensures PicksTexts(content, TextPlaces(content), []) && TextsAt(content, []) == TextsOf(content)
    ensures PicksTexts(content, TaskPlaces(content), []) && TextsAt(content, []) == TaskTexts(TextsOf(content))
  {
  }

  lemma TextPlacesOneMore(content: seq<ContentBlock>)
    requires content != []
    ensures var places := TextPlaces(DropLast(content));
            TextPlaces(content) == if Last(content).Text? then places + {|content| - 1} else places
  {
  }

  lemma {:induction false} TextsArePicked(content: seq<ContentBlock>) returns (picked: seq<nat>)
    ensures PicksTexts(content, TextPlaces(content), picked) && TextsAt(content, picked) == TextsOf(content)
  {
    hide PicksTexts, TextsOf, TextPlaces;
    picked := [];
    if content == [] {
      NothingPicked(content);
    } else {
      var front := DropLast(content);
      picked := TextsArePicked(front);
      TextsOneMore(content);
      TextPlacesOneMore(content);
      if Last(content).Text? {
        OneMorePicked(content, TextPlaces(front), picked);
        picked := picked + [|front|];
      } else {
        SamePicked(content, TextPlaces(front), picked);
      }
    }
  }

  /** One more place. */
  lemma OneMorePicked(content: seq<ContentBlock>, before: set<nat>, picked: seq<nat>)
    requires content != [] && PicksTexts(DropLast(content), before, picked) && Last(content).Text?
    ensures PicksTexts(content, before + {|content| - 1}, picked + [|content| - 1])
    ensures TextsAt(content, picked + [|content| - 1]) ==
            TextsAt(DropLast(content), picked) + [Last(content).text]
  {
    var n, now := |content| - 1, picked + [|content| - 1];
    forall i ensures i in before + {n} <==> i in now {
      assert i in now <==> i in picked || i == n;
    }
    forall k | 0 <= k < |now| ensures now[k] < |content| && content[now[k]].Text? {
      if k < |picked| {
        assert DropLast(content)[picked[k]].Text?;
      }
    }
  }

  /** None more. */
  lemma SamePicked(content: seq<ContentBlock>, chosen: set<nat>, picked: seq<nat>)
    requires content != [] && PicksTexts(DropLast(content), chosen, picked)
    ensures PicksTexts(content, chosen, picked)
    ensures TextsAt(content, picked) == TextsAt(DropLast(content), picked)
  {
    forall k | 0 <= k < |picked| ensures picked[k] < |content| && content[picked[k]].Text? {
      assert DropLast(content)[picked[k]].Text?;
    }
  }

  lemma {:induction false} TaskIsPicked(content: seq<ContentBlock>) returns (picked: seq<nat>)
    ensures PicksTexts(content, TaskPlaces(content), picked)
    ensures TextsAt(content, picked) == TaskTexts(TextsOf(content))
  {
    hide StartsWith, TaskPlaces, IsTaskText, TaskTexts, TextsOf, PicksTexts;
    picked := [];
    if content == [] {
      NothingPicked(content);
    } else {
      var front := DropLast(content);
      picked := TaskIsPicked(front);
      TaskPlacesOneMore(content);
      TaskTextsOneMore(content);
      if IsTaskText(content, |front|) {
        OneMorePicked(content, TaskPlaces(front), picked);
        picked := picked + [|front|];
      } else {
        SamePicked(content, TaskPlaces(front), picked);
      }
    }
  }

  lemma TaskTextsOneMore(content: seq<ContentBlock>)
    requires content != []
    ensures IsTaskText(content, |content| - 1) ==> Last(content).Text?
    ensures var texts := TaskTexts(TextsOf(DropLast(content)));
            TaskTexts(TextsOf(content)) ==
            if IsTaskText(content, |content| - 1) then texts + [Last(content).text] else texts
  {
    LastIsTaskText(content);
    TextsOneMore(content);
    hide StartsWith, TaskTexts, IsTaskText, TextsOf;
    if Last(content).Text? {
      TaskTextsSnoc(TextsOf(DropLast(content)), Last(content).text);
    }
  }

  lemma TextsOneMore(content: seq<ContentBlock>)
    requires content != []
    ensures var texts := TextsOf(DropLast(content));
            TextsOf(content) == if Last(content).Text? then texts + [Last(content).text] else texts
  {
    var texts := TextsOf(DropLast(content));
    assert texts + [] == texts;
  }

  lemma LastIsTaskText(content: seq<ContentBlock>)
    requires content != []
    ensures IsTaskText(content, |content| - 1) <==>
            Last(content).Text? &&
            (TextsOf(DropLast(content)) == [] || !StartsWith(Last(content).text, REATTACH_MARKER))
  {
    hide StartsWith, TextsOf;
    FirstText(DropLast(content));
    assert forall j | 0 <= j < |content| - 1 :: DropLast(content)[j] == content[j];
  }

  lemma TaskTextsSnoc(texts: seq<string>, text: string)
    ensures TaskTexts(texts + [text]) ==
            if texts == [] || !StartsWith(text, REATTACH_MARKER) then TaskTexts(texts) + [text] else TaskTexts(texts)
  {
    hide StartsWith;
    assert DropLast(texts + [text]) == texts && TaskTexts(texts) + [] == TaskTexts(texts);
  }

  lemma TaskPlacesOneMore(content: seq<ContentBlock>)
    requires content != []
    ensures var places := TaskPlaces(DropLast(content));
            TaskPlaces(content) ==
            if IsTaskText(content, |content| - 1) then places + {|content| - 1} else places
  {
    var front := DropLast(content);
    forall i | 0 <= i < |front| ensures IsTaskText(content, i) <==> IsTaskText(front, i) {
      assert front[i] == content[i] && forall j | 0 <= j < i :: front[j] == content[j];
    }
  }

  lemma {:induction false} FirstText(content: seq<ContentBlock>)
    ensures TextsOf(content) == [] <==> forall j | 0 <= j < |content| :: !content[j].Text?
  {
    if content != [] {
      FirstText(DropLast(content));
      if Last(content).Text? {
        assert content[|content| - 1].Text?;
      } else {
        assert forall j | 0 <= j < |content| - 1 :: content[j] == DropLast(content)[j];
      }
    }
  }

  /** The task's text is the task's own texts, and the summary is the answer's. */
  lemma JoinsStand(task: seq<ContentBlock>, answer: seq<ContentBlock>)
    ensures Stands(Join(TaskTexts(TextsOf(task)), "\n"), task, TaskPlaces(task))
    ensures Stands(Join(TextsOf(answer), "\n"), answer, TextPlaces(answer))
  {
    hide PicksTexts, StandAt, TextsOf, TaskTexts, Join, TaskPlaces, TextPlaces;
    var p := TaskIsPicked(task);
    var at := JoinedStand(TaskTexts(TextsOf(task)));
    var q := TextsArePicked(answer);
    var to := JoinedStand(TextsOf(answer));
  }

  lemma RebuiltOpens(task: Message, answer: Reply, recent: seq<Message>)
    ensures Opens(Rebuilt(TaskText(task), SummaryOf(answer), recent)[0].content[0].text, task, answer)
  {
    JoinsStand(task.content, answer.content);
    hide Stands, Join, TaskTexts, TextsOf;
    var front, back := TaskText(task), SummaryOf(answer);
    var text := front + SUMMARY_HEADING + back;
    var n := |front|;
    assert text[..n] == front && text[n..n + |SUMMARY_HEADING|] == SUMMARY_HEADING;
    assert text[n + |SUMMARY_HEADING|..] == back;
  }

  /** A compaction goes through exactly when there is a middle to summarise and the
      summariser answered with text, and came to an end of its own or paused: an
      answer that was refused, blocked, cut off or blank never replaces the
      history. */
  lemma CompactsExactly(ms: seq<Message>, threshold: nat, lastInputTokens: nat, answer: Option<Reply>)
    ensures CompactMessages(ms, threshold, lastInputTokens, answer).Done? <==>
            && Partition(ms, RecentBudget(ms, threshold, lastInputTokens)).Some?
            && answer.Some? && !Blank(SummaryOf(answer.value)) && CameToAnEnd(answer.value.stop)
  {
    var budget := RecentBudget(ms, threshold, lastInputTokens);
    if answer.Some? {
      UnusableMeaning(answer.value);
    }
    if Partition(ms, budget).Some? {
      PartitionKeepsWithinBudget(ms, budget);
    }
    hide Blank, SummaryOf, RecentBudget, Partition, Unusable, CameToAnEnd;
  }

  predicate CameToAnEnd(stop: StopReason) {
    || stop.EndTurn? || stop.ToolUseStop? || stop.StopSequence? || stop.Unrecognized? || stop.Unreported?
    || stop.PauseTurnStop?
  }

  lemma UnusableMeaning(answer: Reply)
    ensures Unusable(answer) <==> Blank(SummaryOf(answer)) || !CameToAnEnd(answer.stop)
  {
    hide Blank, SummaryOf, HasUsableContent;
  }

  /** A compaction that ran replaced the middle, and nothing else: the counts
      add up, and the history got shorter. */
  lemma CompactionConserves(ms: seq<Message>, threshold: nat, lastInputTokens: nat, answer: Option<Reply>)
    requires Paired(ms) && CompactMessages(ms, threshold, lastInputTokens, answer).Done?
    ensures var r := CompactMessages(ms, threshold, lastInputTokens, answer);
            && Compacts(ms, r.messages)
            && r.summarized > 0 && |r.messages| + r.summarized == |ms|
            && |r.messages[0].content| == 1 && r.messages[0].content[0].Text?
            && Opens(r.messages[0].content[0].text, ms[0], answer.value)
  {
    var budget := RecentBudget(ms, threshold, lastInputTokens);
    PartitionNeverSplitsAPair(ms, budget);
    var k := Partition(ms, budget).value.1;
    var r := CompactMessages(ms, threshold, lastInputTokens, answer);
    assert r.messages[1..] == ms[k..];
    assert CompactsAt(ms, r.messages, k);
    RebuiltOpens(ms[0], answer.value, ms[k..]);
  }

  /** What the summariser is asked: to do as the instruction says with everything
      before the cut, each message in its place and whole. */
  lemma SummaryRequestCovers(ms: seq<Message>, cut: nat)
    requires cut <= |ms|
    ensures var request := SummaryRequest(ms, cut);
            && cut <= |request|
            && (forall i | 0 <= i < cut :: request[i].role == ms[i].role && ms[i].content <= request[i].content)
            && EndsWithUser(request) && Last(request).content != []
            && Last(Last(request).content) == Text(SUMMARY_INSTRUCTION)
  {
    hide SUMMARY_INSTRUCTION;
    PushedTurnJoins(ms[..cut], SUMMARY_INSTRUCTION);
  }

  /** The summariser's request is itself a well-formed history that ends in a
      user turn: no call in it is left unanswered by the cut. */
  lemma SummaryRequestIsWellFormed(ms: seq<Message>, budget: nat)
    requires WellFormed(ms) && Partition(ms, budget).Some?
    ensures Partition(ms, budget).value.1 <= |ms|
    ensures var request := SummaryRequest(ms, Partition(ms, budget).value.1);
            WellFormed(request) && EndsWithUser(request)
  {
    PartitionNeverSplitsAPair(ms, budget);
    var k := Partition(ms, budget).value.1;
    hide Partition, WellFormed, PushUserTurn, SUMMARY_INSTRUCTION;
    CutBeforeResultsKeeps(ms, k);
    PushUserTurnKeeps(ms[..k], SUMMARY_INSTRUCTION);
  }

  /** A history cut where no result follows is well formed. */
  lemma CutBeforeResultsKeeps(ms: seq<Message>, k: nat)
    requires WellFormed(ms) && k < |ms| && Answers(ms[k].content) == []
    ensures WellFormed(ms[..k])
  {
    hide Uses, Answers;
    var front := ms[..k];
    assert forall i | 0 <= i < k :: ProperRole(ms[i]);
    forall i | 0 <= i <= |front| ensures AnswersAt(front, i) == UsesAt(front, i - 1) {
      assert AnswersAt(ms, i) == UsesAt(ms, i - 1);
    }
  }

  // ------------------------------------------------------ the token budget

  lemma FloorFits(tokens: real, perChar: real, chars: nat)
    requires tokens >= 0.0 && perChar >= 0.25
    requires chars <= (tokens / perChar).Floor
    ensures chars as real * perChar <= tokens
  {
    var q := tokens / perChar;
    assert chars as real <= q;
    assert chars as real * perChar <= q * perChar;
  }

  /** The cut kept more than the two messages it always keeps, and was not moved
      to protect a pair. */
  predicate KeptByBudget(ms: seq<Message>, threshold: nat, lastInputTokens: nat) {
    var budget := RecentBudget(ms, threshold, lastInputTokens);
    |ms| > 2 && Partition(ms, budget) == Some((1, WalkBack(ms, budget, |ms|))) && WalkBack(ms, budget, |ms|) < |ms| - 2
  }

  /** The counted characters of the verbatim part. */
  function KeptChars(ms: seq<Message>, threshold: nat, lastInputTokens: nat): nat
    requires KeptByBudget(ms, threshold, lastInputTokens)
  {
    TotalChars(ms[WalkBack(ms, RecentBudget(ms, threshold, lastInputTokens), |ms|)..])
  }

  /** The tokens that a compacted history takes: the opening message, the
      summary at its cap, and the verbatim part. */
  function CompactedTokens(ms: seq<Message>, threshold: nat, lastInputTokens: nat): real
    requires KeptByBudget(ms, threshold, lastInputTokens)
  {
    var perChar := TokensPerChar(TotalChars(ms), lastInputTokens);
    FixedTokens(ms, perChar) + KeptChars(ms, threshold, lastInputTokens) as real * perChar
  }

  /** The verbatim part fits its own share of the budget. */
  lemma KeptFitsItsShare(ms: seq<Message>, threshold: nat, lastInputTokens: nat)
    requires KeptByBudget(ms, threshold, lastInputTokens)
    ensures var perChar := TokensPerChar(TotalChars(ms), lastInputTokens);
            KeptChars(ms, threshold, lastInputTokens) as real * perChar <= RecentTokens(ms, threshold, perChar)
  {
    hide TotalChars, FixedTokens, Partition, WalkBack, HalfOf;
    var perChar := TokensPerChar(TotalChars(ms), lastInputTokens);
    MoreThanTwoFits(ms, RecentBudget(ms, threshold, lastInputTokens), |ms|);
    FloorFits(RecentTokens(ms, threshold, perChar), perChar, KeptChars(ms, threshold, lastInputTokens));
  }

  /** The compacted history lands within half the threshold, as soon as its
      verbatim part has one counted character. */
  lemma CompactedFitsHalf(ms: seq<Message>, threshold: nat, lastInputTokens: nat)
    requires KeptByBudget(ms, threshold, lastInputTokens) && KeptChars(ms, threshold, lastInputTokens) > 0
    ensures CompactedTokens(ms, threshold, lastInputTokens) <= HalfOf(threshold)
  {
    hide TotalChars, FixedTokens, HalfOf, KeptByBudget, KeptChars;
    CompactedFitsHalfExactly(ms, threshold, lastInputTokens);
  }

  /** Exactly when it lands there: always but for a verbatim part without a
      counted character behind an opening message and a summary that pass half
      the threshold on their own. */
  lemma CompactedFitsHalfExactly(ms: seq<Message>, threshold: nat, lastInputTokens: nat)
    requires KeptByBudget(ms, threshold, lastInputTokens)
    ensures var perChar := TokensPerChar(TotalChars(ms), lastInputTokens);
            CompactedTokens(ms, threshold, lastInputTokens) <= HalfOf(threshold) <==>
            KeptChars(ms, threshold, lastInputTokens) > 0 || FixedTokens(ms, perChar) <= HalfOf(threshold)
  {
    hide TotalChars, FixedTokens, HalfOf, KeptByBudget, KeptChars;
    var perChar := TokensPerChar(TotalChars(ms), lastInputTokens);
    KeptFitsItsShare(ms, threshold, lastInputTokens);
    ShareFits(KeptChars(ms, threshold, lastInputTokens), perChar, FixedTokens(ms, perChar), HalfOf(threshold));
  }

  lemma ShareFits(chars: nat, perChar: real, fixed: real, half: real)
    requires perChar >= 0.25
    requires chars as real * perChar <= if half > fixed then half - fixed else 0.0
    ensures fixed + chars as real * perChar <= half <==> chars > 0 || fixed <= half
  {
    if chars > 0 {
      assert chars as real * perChar > 0.0;
    } else {
      assert chars as real * perChar == 0.0;
    }
  }

  /** Past the last two messages the walk only goes on within the budget. */
  lemma {:induction false} MoreThanTwoFits(ms: seq<Message>, budget: nat, from: nat)
    requires |ms| > 2 && 1 <= from <= |ms|
    requires from < |ms| - 2 ==> TotalChars(ms[from..]) <= budget
    ensures WalkBack(ms, budget, from) < |ms| - 2 ==> TotalChars(ms[WalkBack(ms, budget, from)..]) <= budget
    decreases from
  {
    if from > 1 && !(from <= |ms| - 2 && TotalChars(ms[from - 1..]) > budget) {
      MoreThanTwoFits(ms, budget, from - 1);
    }
  }

  /** The degenerate case: the opening message and the summary pass half the
      threshold on their own, the budget is zero, and three messages without a
      counted character are kept. */
  lemma TooLargeATaskDoesNotFit(ms: seq<Message>)
    requires ms == [UserText("xxxx"), Message(Assistant, [Text("x")]), Message(User, []), Message(Assistant, []),
            Message(User, [])]
    ensures KeptByBudget(ms, 16384, 1) && KeptChars(ms, 16384, 1) == 0
    ensures CompactedTokens(ms, 16384, 1) > HalfOf(16384)
  {
    hide TotalChars, WalkBack, Partition, MessageChars;
    SmallHistory(ms);
    assert TokensPerChar(5, 1) == 0.25;
    assert FixedTokens(ms, 0.25) == 8193.0;
    assert HalfOf(16384) == 8192.0;
    assert RecentBudget(ms, 16384, 1) == 0;
  }

  lemma SmallHistory(ms: seq<Message>)
    requires ms == [UserText("xxxx"), Message(Assistant, [Text("x")]), Message(User, []), Message(Assistant, []),
            Message(User, [])]
    ensures TotalChars(ms) == 5 && TotalChars(ms[2..]) == 0 && MessageChars(ms[0]) == 4
    ensures WalkBack(ms, 0, |ms|) == 2 && Partition(ms, 0) == Some((1, 2))
  {
    assert DropLast([Text("xxxx")]) == [] && DropLast([Text("x")]) == [];
    assert MessageChars(ms[0]) == 4 && MessageChars(ms[1]) == 1;
    assert ms[4..][1..] == ms[5..] && ms[3..][1..] == ms[4..] && ms[2..][1..] == ms[3..] && ms[1..][1..] == ms[2..];
    assert TotalChars(ms[5..]) == 0;
    assert TotalChars(ms[4..]) == 0;
    assert TotalChars(ms[3..]) == 0;
    assert TotalChars(ms[2..]) == 0;
    assert TotalChars(ms[1..]) == 1;
    assert WalkBack(ms, 0, 2) == 2;
    assert WalkBack(ms, 0, 3) == 2;
    assert WalkBack(ms, 0, 4) == 2;
  }
}

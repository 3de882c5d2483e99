/**
 The provider conversation: messages of content blocks, and the few ways the
 agent loop and the replay change it.

 A `string` here holds the UTF-8 bytes of the source's `String`, one `char` a
 byte, so `|s|` is the byte length that the source's budgets count.
 */
module Conversation {
  import opened Wrappers

  datatype Role = User | Assistant

  datatype ContentBlock =
    | Text(text: string)
    | ToolUse(id: string, name: string, input: string)
    | ToolResult(toolUseId: string, content: string, isError: bool)
    | Reasoning(summary: Option<string>, provider: string, model: string, raw: string)
    | Fallback(fromModel: string, toModel: string)
    | Unknown(raw: string)

  datatype Message = Message(role: Role, content: seq<ContentBlock>)

  function UserText(text: string): Message {
    Message(User, [Text(text)])
  }

  function Last<T>(s: seq<T>): T
    requires s != []
  {
    s[|s| - 1]
  }

  function DropLast<T>(s: seq<T>): seq<T>
    requires s != []
  {
    s[..|s| - 1]
  }

  predicate Distinct<T(==)>(s: seq<T>) {
    forall i, j | 0 <= i < j < |s| :: s[i] != s[j]
  }

  lemma DistinctParts<T>(s: seq<T>)
    requires s != [] && Distinct(s)
    ensures Distinct(s[1..]) && Distinct(DropLast(s))
    ensures s[0] !in s[1..] && Last(s) !in DropLast(s)
  {
    assert forall i | 0 <= i < |s| - 1 :: s[1..][i] == s[i + 1];
  }

  predicate EndsWithUser(ms: seq<Message>) {
    ms != [] && Last(ms).role.User?
  }

  predicate EndsWithAssistant(ms: seq<Message>) {
    ms != [] && Last(ms).role.Assistant?
  }

  /** Add `text` as a user turn: it joins a trailing user message as one more
      block, otherwise it becomes a message of its own. */
  function PushUserTurn(ms: seq<Message>, text: string): seq<Message> {
    if EndsWithUser(ms)
    then DropLast(ms) + [Message(User, Last(ms).content + [Text(text)])]
    else ms + [UserText(text)]
  }

  /** Add a turn's assistant content: nothing when there is none; into the
      last message when the turn continues a paused one; else a new message. */
  function AppendAssistant(ms: seq<Message>, merge: bool, blocks: seq<ContentBlock>): seq<Message> {
    if blocks == [] then ms
    else if merge && EndsWithAssistant(ms)
    then DropLast(ms) + [Message(Assistant, Last(ms).content + blocks)]
    else ms + [Message(Assistant, blocks)]
  }

  /** Add a turn's tool results as the user message that follows it. */
  function AppendResults(ms: seq<Message>, results: seq<ContentBlock>): seq<Message> {
    if results == [] then ms else ms + [Message(User, results)]
  }

  // ---------------------------------------------------------------- pairing

  /** The ids of the tool calls in `content`, in order. */
  function Uses(content: seq<ContentBlock>): seq<string> {
    if content == [] then []
    else Uses(DropLast(content)) + (if Last(content).ToolUse? then [Last(content).id] else [])
  }

  /** The ids that the tool results in `content` answer, in order. */
  function Answers(content: seq<ContentBlock>): seq<string> {
    if content == [] then []
    else Answers(DropLast(content)) + (if Last(content).ToolResult? then [Last(content).toolUseId] else [])
  }

  function UsesAt(ms: seq<Message>, i: int): seq<string> {
    if 0 <= i < |ms| then Uses(ms[i].content) else []
  }

  function AnswersAt(ms: seq<Message>, i: int): seq<string> {
    if 0 <= i < |ms| then Answers(ms[i].content) else []
  }

  /** Tool calls stand in assistant messages and tool results in user ones. */
  predicate ProperRole(m: Message) {
    && (Uses(m.content) != [] ==> m.role.Assistant?)
    && (Answers(m.content) != [] ==> m.role.User?)
  }

  /** Every message answers exactly the calls of the message before it, in
      their order. In particular the first message answers nothing and the
      last one calls nothing. */
  ghost predicate Paired(ms: seq<Message>) {
    && (forall i | 0 <= i < |ms| :: ProperRole(ms[i]))
    && (forall i | 0 <= i <= |ms| :: AnswersAt(ms, i) == UsesAt(ms, i - 1))
  }

  /** A conversation a provider accepts as history: it opens with a user
      message and is tool-paired. */
  ghost predicate WellFormed(ms: seq<Message>) {
    && (ms != [] ==> ms[0].role.User?)
    && Paired(ms)
  }

  lemma {:induction false} UsesConcat(a: seq<ContentBlock>, b: seq<ContentBlock>)
    ensures Uses(a + b) == Uses(a) + Uses(b)
    ensures Answers(a + b) == Answers(a) + Answers(b)
  {
    if b == [] {
      assert a + b == a;
    } else {
      UsesConcat(a, DropLast(b));
      assert DropLast(a + b) == a + DropLast(b);
    }
  }

  /** What a well-formed conversation's last message cannot hold. */
  lemma LastCallsNothing(ms: seq<Message>)
    requires Paired(ms) && ms != []
    ensures Uses(Last(ms).content) == []
    ensures Last(ms).role.Assistant? ==> Answers(Last(ms).content) == []
  {
    assert AnswersAt(ms, |ms|) == UsesAt(ms, |ms| - 1);
  }

  /** Appending a user message without tool blocks keeps the pairing. */
  lemma PushPlainKeeps(ms: seq<Message>, m: Message)
    requires WellFormed(ms)
    requires m.role.User? && Uses(m.content) == [] && Answers(m.content) == []
    ensures WellFormed(ms + [m])
  {
    var after := ms + [m];
    forall i | 0 <= i <= |after| ensures AnswersAt(after, i) == UsesAt(after, i - 1) {
      if i < |ms| {
        assert AnswersAt(ms, i) == UsesAt(ms, i - 1);
      } else if i == |ms| {
        assert AnswersAt(ms, i) == UsesAt(ms, i - 1);
      }
    }
  }

  lemma PushUserTurnKeeps(ms: seq<Message>, text: string)
    requires WellFormed(ms)
    ensures WellFormed(PushUserTurn(ms, text))
    ensures EndsWithUser(PushUserTurn(ms, text))
    ensures |PushUserTurn(ms, text)| >= |ms|
  {
    assert DropLast([Text(text)]) == [];
    if EndsWithUser(ms) {
      LastCallsNothing(ms);
      UsesConcat(Last(ms).content, [Text(text)]);
      ReplaceLastPends(ms, Message(User, Last(ms).content + [Text(text)]));
      NothingPending(PushUserTurn(ms, text));
    } else {
      PushPlainKeeps(ms, UserText(text));
    }
  }

  /** Pairing with the calls of the last message still to be answered. */
  ghost predicate PendingOn(ms: seq<Message>, calls: seq<string>) {
    && ms != [] && ms[0].role.User?
    && (forall i | 0 <= i < |ms| :: ProperRole(ms[i]))
    && (forall i | 0 <= i < |ms| :: AnswersAt(ms, i) == UsesAt(ms, i - 1))
    && Uses(Last(ms).content) == calls
  }

  lemma NothingPending(ms: seq<Message>)
    requires PendingOn(ms, [])
    ensures WellFormed(ms)
  {
    assert AnswersAt(ms, |ms|) == UsesAt(ms, |ms| - 1);
  }

  lemma PushPends(ms: seq<Message>, m: Message)
    requires WellFormed(ms) && ms != []
    requires ProperRole(m) && Answers(m.content) == []
    ensures PendingOn(ms + [m], Uses(m.content))
  {
    var after := ms + [m];
    forall i | 0 <= i < |after| ensures AnswersAt(after, i) == UsesAt(after, i - 1) {
      assert AnswersAt(ms, i) == UsesAt(ms, i - 1);
    }
  }

  lemma ReplaceLastPends(ms: seq<Message>, m: Message)
    requires WellFormed(ms) && ms != []
    requires ProperRole(m) && m.role == Last(ms).role
    requires Answers(m.content) == Answers(Last(ms).content)
    ensures PendingOn(DropLast(ms) + [m], Uses(m.content))
  {
    var after := DropLast(ms) + [m];
    assert forall k | 0 <= k < |ms| - 1 :: after[k] == ms[k];
    forall i | 0 <= i < |after| ensures AnswersAt(after, i) == UsesAt(after, i - 1) {
      assert AnswersAt(ms, i) == UsesAt(ms, i - 1);
      if i < |ms| - 1 {
        assert AnswersAt(after, i) == AnswersAt(ms, i);
      }
    }
  }

  lemma AppendAssistantKeeps(ms: seq<Message>, merge: bool, blocks: seq<ContentBlock>)
    requires WellFormed(ms) && ms != []
    requires Answers(blocks) == []
    ensures PendingOn(AppendAssistant(ms, merge, blocks), Uses(blocks))
  {
    LastCallsNothing(ms);
    if blocks == [] {
      assert forall i | 0 <= i <= |ms| :: AnswersAt(ms, i) == UsesAt(ms, i - 1);
    } else if merge && EndsWithAssistant(ms) {
      UsesConcat(Last(ms).content, blocks);
      ReplaceLastPends(ms, Message(Assistant, Last(ms).content + blocks));
    } else {
      PushPends(ms, Message(Assistant, blocks));
    }
  }

  lemma AppendResultsKeeps(ms: seq<Message>, results: seq<ContentBlock>)
    requires PendingOn(ms, Answers(results))
    requires Uses(results) == []
    requires results != [] ==> Answers(results) != []
    ensures WellFormed(AppendResults(ms, results))
  {
    var after := AppendResults(ms, results);
    forall i | 0 <= i <= |after| ensures AnswersAt(after, i) == UsesAt(after, i - 1) {
      if i < |ms| {
        assert AnswersAt(ms, i) == UsesAt(ms, i - 1);
      }
    }
  }

  /** Committing a whole turn (its assistant content, then the results of
      exactly its calls) keeps the conversation well formed. */
  lemma CommitTurnKeeps(ms: seq<Message>, merge: bool, blocks: seq<ContentBlock>, results: seq<ContentBlock>)
    requires WellFormed(ms) && ms != []
    requires Answers(blocks) == [] && Uses(results) == []
    requires Answers(results) == Uses(blocks)
    requires results != [] ==> Answers(results) != []
    ensures WellFormed(AppendResults(AppendAssistant(ms, merge, blocks), results))
  {
    AppendAssistantKeeps(ms, merge, blocks);
    AppendResultsKeeps(AppendAssistant(ms, merge, blocks), results);
  }

  // ----------------------------------------------------------------- turns

  /** No two assistant messages stand next to each other. */
  predicate RepliesApart(ms: seq<Message>) {
    forall i | 0 < i < |ms| :: ms[i].role.User? || ms[i - 1].role.User?
  }

  /** What a kept turn does to a conversation, message by message. A paused
      message that the turn continues holds its old content and then the turn's;
      otherwise the turn's content, if it has any, is one new assistant message.
      Its results, if it has any, are one user message behind that. */
  predicate TurnJoins(before: seq<Message>, merge: bool, blocks: seq<ContentBlock>, results: seq<ContentBlock>,
                      after: seq<Message>) {
    var n := |before|;
    var joins := blocks != [] && merge && n > 0 && before[n - 1].role.Assistant?;
    var replies := if blocks == [] || joins then n else n + 1;
    && |after| == replies + (if results == [] then 0 else 1)
    && (forall i | 0 <= i < (if joins then n - 1 else n) :: after[i] == before[i])
    && (joins ==> after[n - 1] == Message(Assistant, before[n - 1].content + blocks))
    && (replies > n ==> after[n] == Message(Assistant, blocks))
    && (results != [] ==> after[replies] == Message(User, results))
  }

  /** What a user turn does: it ends the trailing user message, as its last block,
      or is a message of its own behind an assistant's. */
  lemma PushedTurnJoins(ms: seq<Message>, text: string)
    ensures var n, after := |ms|, PushUserTurn(ms, text);
            var joins := n > 0 && ms[n - 1].role.User?;
            && |after| == (if joins then n else n + 1)
            && (forall i | 0 <= i < (if joins then n - 1 else n) :: after[i] == ms[i])
            && after[|after| - 1] == Message(User, (if joins then ms[n - 1].content else []) + [Text(text)])
  {
  }

  lemma AppendedTurnJoins(ms: seq<Message>, merge: bool, blocks: seq<ContentBlock>, results: seq<ContentBlock>)
    ensures TurnJoins(ms, merge, blocks, results, AppendResults(AppendAssistant(ms, merge, blocks), results))
  {
  }

  /** A turn on a conversation that was ready to be sent keeps replies apart. */
  lemma TurnKeepsApart(ms: seq<Message>, merge: bool, blocks: seq<ContentBlock>, results: seq<ContentBlock>,
                       after: seq<Message>)
    requires RepliesApart(ms) && TurnJoins(ms, merge, blocks, results, after)
    requires EndsWithUser(ms) || merge
    ensures RepliesApart(after)
  {
    forall i | 0 < i < |after| ensures after[i].role.User? || after[i - 1].role.User? {
      if i < |ms| {
        assert ms[i].role.User? || ms[i - 1].role.User?;
      }
    }
  }

  lemma UserKeepsApart(ms: seq<Message>, m: Message, text: string)
    requires RepliesApart(ms) && m.role.User?
    ensures RepliesApart(ms + [m]) && RepliesApart(PushUserTurn(ms, text))
  {
    forall i | 0 < i < |ms| ensures (ms + [m])[i].role.User? || (ms + [m])[i - 1].role.User? {
      assert ms[i].role.User? || ms[i - 1].role.User?;
    }
    var pushed := PushUserTurn(ms, text);
    forall i | 0 < i < |pushed| ensures pushed[i].role.User? || pushed[i - 1].role.User? {
      if i < |ms| {
        assert ms[i].role.User? || ms[i - 1].role.User?;
      }
    }
  }

  /** So does a user message ahead of a suffix. */
  lemma SuffixKeepsApart(first: Message, ms: seq<Message>, k: nat)
    requires RepliesApart(ms) && first.role.User? && k <= |ms|
    ensures RepliesApart([first] + ms[k..])
  {
    var after := [first] + ms[k..];
    forall i | 0 < i < |after| ensures after[i].role.User? || after[i - 1].role.User? {
      if i > 1 {
        assert after[i] == ms[k + i - 1] && after[i - 1] == ms[k + i - 2];
      }
    }
  }

  // ------------------------------------------------------- tool result text

  const MAX_TOOL_RESULT_BYTES: nat := 256 * 1024

  /** Whether byte offset `i` of `s` starts a character (or is its end). */
  predicate IsCharBoundary(s: string, i: nat) {
    i == 0 || i >= |s| || !(0x80 <= s[i] as int < 0xC0)
  }

  /** The largest character boundary of `s` not above `end`. */
  function BoundaryAtMost(s: string, end: nat): (r: nat)
    ensures r <= end && IsCharBoundary(s, r)
    ensures forall k | r < k <= end :: !IsCharBoundary(s, k)
  {
    if IsCharBoundary(s, end) then end else BoundaryAtMost(s, end - 1)
  }

  /** `s` cut to at most `maxBytes` bytes without splitting a character. */
  method TruncateUtf8Bytes(s: string, maxBytes: nat) returns (r: string)
    ensures r <= s && |r| <= maxBytes && IsCharBoundary(s, |r|)
    ensures forall k: nat | |r| < k <= maxBytes && k <= |s| :: !IsCharBoundary(s, k)
    ensures r == TruncatedUtf8(s, maxBytes)
  {
    if |s| <= maxBytes {
      return s;
    }
    var end: nat := maxBytes;
    while end > 0 && !IsCharBoundary(s, end)
      invariant 0 <= end <= maxBytes
      invariant forall k: nat | end < k <= maxBytes :: !IsCharBoundary(s, k)
      invariant BoundaryAtMost(s, maxBytes) == BoundaryAtMost(s, end)
    {
      end := end - 1;
    }
    r := s[..end];
  }

  function TruncatedUtf8(s: string, maxBytes: nat): string {
    if |s| <= maxBytes then s else s[..BoundaryAtMost(s, maxBytes)]
  }

  function Decimal(n: nat): string {
    var digit := ['0' + (n % 10) as char];
    if n < 10 then digit else Decimal(n / 10) + digit
  }

  /** The clamp every tool result passes through. */
  function ClampToolResult(s: string): string {
    if |s| <= MAX_TOOL_RESULT_BYTES then s
    else
      var prefix := TruncatedUtf8(s, MAX_TOOL_RESULT_BYTES);
      prefix + "\n\U{E2}\U{80}\U{A6} [truncated " + Decimal(|s| - |prefix|) + " bytes]"
  }

  /** The block the model reads for one tool call: an error goes ahead of the
      output, and the two are clamped together. */
  function ResultBlock(callId: string, output: string, error: Option<string>): ContentBlock {
    match error
    case None => ToolResult(callId, output, false)
    case Some(e) => ToolResult(callId, ClampToolResult("error: " + e + "\n" + output), true)
  }

  /** What a result says. It is marked an error exactly when there is one, and
      then holds the error and the output behind it, both whole when together
      they fit the clamp; an output without an error is as it was. */
  lemma ResultSays(callId: string, output: string, error: Option<string>)
    ensures var b := ResultBlock(callId, output, error);
            && b.ToolResult? && b.toolUseId == callId && (b.isError <==> error.Some?)
            && match error
               case None => b.content == output
               case Some(e) =>
                 if 8 + |e| + |output| <= MAX_TOOL_RESULT_BYTES
                 then |b.content| == 8 + |e| + |output| && b.content[7..7 + |e|] == e &&
                      b.content[8 + |e|..] == output
                 else TruncatedUtf8("error: " + e + "\n" + output, MAX_TOOL_RESULT_BYTES) <= b.content
  {
    if error.Some? {
      var whole := "error: " + error.value + "\n" + output;
      assert |whole| == 8 + |error.value| + |output|;
      assert whole[7..7 + |error.value|] == error.value && whole[8 + |error.value|..] == output;
    }
  }

  /** The number that decimal digits say. */
  function NumberOf(digits: string): nat {
    if digits == "" then 0
    else NumberOf(DropLast(digits)) * 10 + (if Last(digits) >= '0' then Last(digits) as nat - '0' as nat else 0)
  }

  lemma {:induction false} DecimalReads(n: nat)
    ensures (forall c | c in Decimal(n) :: '0' <= c <= '9') && NumberOf(Decimal(n)) == n
  {
    var digit := ['0' + (n % 10) as char];
    assert DropLast(digit) == "" && Last(digit) == '0' + (n % 10) as char;
    if n >= 10 {
      DecimalReads(n / 10);
      assert DropLast(Decimal(n / 10) + digit) == Decimal(n / 10);
      assert Last(Decimal(n)) == digit[0];
    }
  }

  /** A result over the limit shows the longest run of whole characters that fits,
      and then how many bytes are missing. */
  lemma ClampTells(text: string) returns (shown: nat)
    requires |text| > MAX_TOOL_RESULT_BYTES
    ensures shown <= MAX_TOOL_RESULT_BYTES && IsCharBoundary(text, shown)
    ensures forall k | shown < k <= MAX_TOOL_RESULT_BYTES :: !IsCharBoundary(text, k)
    ensures var clamped := ClampToolResult(text);
            && |clamped| > shown + 23 && clamped[..shown] == text[..shown]
            && NumberOf(clamped[shown + 16..|clamped| - 7]) == |text| - shown
  {
    shown := BoundaryAtMost(text, MAX_TOOL_RESULT_BYTES);
    hide NumberOf;
    var prefix, digits := text[..shown], Decimal(|text| - shown);
    var head, tail := "\n\U{E2}\U{80}\U{A6} [truncated ", " bytes]";
    assert |head| == 16 && |tail| == 7;
    DecimalReads(|text| - shown);
    DecimalIsShown(|text| - shown);
    var clamped := prefix + head + digits + tail;
    assert ClampToolResult(text) == clamped;
    assert clamped[shown + 16..|clamped| - 7] == digits;
  }

  lemma DecimalIsShown(n: nat)
    ensures Decimal(n) != ""
  {
  }

  // ------------------------------------------------------------- white space

  /** The length of the white-space character that `s` opens with, 0 for none:
      the characters of the Unicode property `White_Space`, in UTF-8. */
  function WhiteAhead(s: string): nat {
    if s == "" then 0
    else if s[0] in {'\t', '\n', '\U{0B}', '\U{0C}', '\r', ' '} then 1
    else if |s| >= 2 && s[0] == '\U{C2}' && s[1] in {'\U{85}', '\U{A0}'} then 2
    else if |s| >= 3 && WhiteTriple(s[0], s[1], s[2]) then 3
    else 0
  }

  /** U+1680, U+2000 to U+200A, U+2028, U+2029, U+202F, U+205F and U+3000. */
  predicate WhiteTriple(a: char, b: char, c: char) {
    || (a == '\U{E1}' && b == '\U{9A}' && c == '\U{80}')
    || (a == '\U{E2}' && b == '\U{80}' && ('\U{80}' <= c <= '\U{8A}' || c in {'\U{A8}', '\U{A9}', '\U{AF}'}))
    || (a == '\U{E2}' && b == '\U{81}' && c == '\U{9F}')
    || (a == '\U{E3}' && b == '\U{80}' && c == '\U{80}')
  }

  /** Whether `s` is only white space. */
  predicate Blank(s: string) {
    s == "" || (0 < WhiteAhead(s) <= |s| && Blank(s[WhiteAhead(s)..]))
  }

  /** What follows a character's first byte is no ASCII byte. */
  lemma WhiteAheadIsOneCharacter(s: string, i: nat)
    requires 0 < i < WhiteAhead(s)
    ensures i < |s| && s[i] >= '\U{80}'
  {
  }

  /** White space around an ASCII byte is white space on both sides of it. */
  lemma {:induction false} BlankAround(a: string, c: char, b: string)
    requires c < '\U{80}' && Blank(a + [c] + b)
    ensures Blank(a) && Blank(b)
  {
    var s := a + [c] + b;
    var n := WhiteAhead(s);
    if a == "" {
      assert s[0] == c && n == 1 && s[1..] == b;
    } else {
      assert s[|a|] == c;
      if n > |a| {
        WhiteAheadIsOneCharacter(s, |a|);
      }
      WhiteAheadOfPrefix(a, s);
      assert s[n..] == a[n..] + [c] + b;
      BlankAround(a[n..], c, b);
    }
  }

  lemma WhiteAheadOfPrefix(a: string, s: string)
    requires a <= s && 0 < WhiteAhead(s) <= |a|
    ensures WhiteAhead(a) == WhiteAhead(s)
  {
  }
}

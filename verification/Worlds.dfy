/**
 Everything the agent loop asks of the outside, as arbitrary answers: each
 question takes the next tick, and the answer is a function of the tick alone,
 so a world is any script of replies, errors, tool results and signals.
 */
module Worlds {
  import opened Wrappers
  import opened Outcomes
  import opened Skills
  import opened Collector
  import opened Emission

  // ------------------------------------------------------------ model limits

  const STANDARD_CONTEXT_WINDOW: nat := 200_000

  datatype Limits = Limits(input: Option<nat>, output: Option<nat>, compactAtPercent: nat, outputSharesContext: bool) {

    function Percent(): nat {
      if compactAtPercent < 10 then 10 else if compactAtPercent > 95 then 95 else compactAtPercent
    }

    /** The input size above which the history is compacted. */
    function CompactThreshold(): Option<nat> {
      match input
      case None => None
      case Some(tokens) =>
        var byPercent := tokens * Percent() / 100;
        if output.Some? && outputSharesContext && tokens > output.value && tokens - output.value < byPercent
        then Some(tokens - output.value)
        else Some(byPercent)
    }

    /** Lower the input limit to `max`; never raise it. */
    function ClampInput(max: nat): Limits {
      if input.Some? && input.value <= max then this else this.(input := Some(max))
    }
  }

  /** The percentage that the threshold applies. */
  predicate Applies(l: Limits, percent: nat) {
    && 10 <= percent <= 95
    && (10 <= l.compactAtPercent <= 95 ==> percent == l.compactAtPercent)
    && (l.compactAtPercent < 10 ==> percent == 10) && (l.compactAtPercent > 95 ==> percent == 95)
  }

  /** An input of `m` tokens is within the percentage, and leaves room for a whole
      reply when output shares the window and is smaller than it. */
  predicate LeavesRoom(l: Limits, m: nat, percent: nat)
    requires l.input.Some?
  {
    && m * 100 <= l.input.value * percent
    && (l.output.Some? && l.outputSharesContext && l.output.value < l.input.value ==>
          m + l.output.value <= l.input.value)
  }

  /** The threshold is the largest input that does both. */
  lemma ThresholdIsLargest(l: Limits, percent: nat)
    requires Applies(l, percent)
    ensures l.CompactThreshold().None? <==> l.input.None?
    ensures l.input.Some? ==>
              && LeavesRoom(l, l.CompactThreshold().value, percent)
              && forall m: nat | LeavesRoom(l, m, percent) :: m <= l.CompactThreshold().value
  {
    if l.input.Some? {
      var byPercent := l.input.value * percent / 100;
      assert byPercent * 100 <= l.input.value * percent < (byPercent + 1) * 100;
      forall m: nat | LeavesRoom(l, m, percent) ensures m <= l.CompactThreshold().value {
        assert m <= byPercent;
      }
    }
  }

  /** Clamping makes the input limit known, and no larger than it was or than the
      clamp; nothing else changes. */
  lemma ClampLowersOnly(l: Limits, max: nat)
    ensures var after := l.ClampInput(max);
            && after.input.Some? && after.(input := l.input) == l
            && after.input.value == (if l.input.Some? && l.input.value < max then l.input.value else max)
  {
  }

  // ---------------------------------------------------------------- answers

  datatype Overflow = Overflow(tokens: Option<nat>, max: Option<nat>)

  /** What the loop reads of a provider error: what kind it is, whether its text
      reads as a context overflow, and the output cap it leaves room for. */
  datatype ProviderError = ProviderError(
    title: string,
    errorClass: ErrorClass,
    fallbackUnavailable: bool,
    longContextUnavailable: bool,
    loweredCap: Option<nat>,
    overflow: Option<Overflow>,
    retryable: bool,
    preflight: bool,
    terminating: bool)

  datatype CallStep = Replied(reply: Reply) | Erred(error: ProviderError) | PausedMidCall

  /** How one tool call ends: the name is unknown, the call is denied, the
      operator stops the run, or the tool runs to a result or an error. */
  datatype ToolStep =
    | NotGranted
    | Denied
    | OperatorStops
    | Ran(output: string, error: Option<string>, loads: Option<LoadedSkill>)
    | ToolFailed(message: string)

  datatype World = World(
    terminating: nat -> bool,
    paused: nat -> bool,
    call: nat -> CallStep,
    summary: nat -> Option<Reply>,
    tool: nat -> ToolStep,
    disk: nat -> map<string, Installed>,
    build: nat -> Option<Limits>,
    collect: nat -> seq<seq<Injection>>)

  /** Every reply of the world is one that the log can carry. */
  ghost predicate RepliesFaithfully(w: World) {
    forall t :: w.call(t).Replied? ==> Faithful(w.call(t).reply.content)
  }

  /** No collector ever has anything to inject. */
  ghost predicate CollectsNothing(w: World) {
    forall t :: w.collect(t) == []
  }

  /** Something tells the run to stop: the process is terminating, or the
      provider reports that it is. */
  ghost predicate MayStop(w: World) {
    (exists t :: w.terminating(t)) || (exists t :: w.call(t).Erred? && w.call(t).error.terminating)
  }

  /** The run is stopped from outside: it may stop, or its operator stops it. */
  ghost predicate IsStopped(w: World) {
    MayStop(w) || exists t :: w.tool(t).OperatorStops?
  }

  /** Something asks the run to pause, between turns or in the middle of a call. */
  ghost predicate MayPause(w: World) {
    (exists t :: w.paused(t)) || (exists t :: w.call(t).PausedMidCall?)
  }
}

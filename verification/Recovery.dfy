/**
 The recovery ladder: the policy table, and the bookkeeping of one run
 (action cap, budgets per logical turn, fallbacks already tried).
 */
module Recovery {
  import opened Wrappers
  import opened Conversation
  import opened Outcomes

  const PAUSE_TURN_BUDGET: nat := 5
  const TRUNCATION_BUDGET: nat := 3
  const MALFORMED_BUDGET: nat := 2
  const EMPTY_REPLY_BUDGET: nat := 1
  const INCOMPLETE_BUDGET: nat := 1
  const RAISED_CAP_BUDGET: nat := 1
  /** Ceiling on recovery actions (rung 0 and hops together) in one run. */
  const MAX_RECOVERY_ACTIONS: nat := 20

  datatype Rung0 =
    | ContinuePause | ContinueTruncated | RetryRaisedCap | CompactThenContinue
    | CorrectMalformed | NudgeEmpty | RetryTurn | ExistingErrorPipeline | NoStep

  datatype Policy = Policy(rung0: Rung0, budget: nat, rung1: bool, rung2: bool, discardPartial: bool)

  function PolicyFor(c: OutcomeClass, truncatedTool: bool): Policy {
    match c
    case PauseTurn => Policy(ContinuePause, PAUSE_TURN_BUDGET, false, false, false)
    case MaxTokens =>
      if truncatedTool then Policy(RetryRaisedCap, RAISED_CAP_BUDGET, true, true, true)
      else Policy(ContinueTruncated, TRUNCATION_BUDGET, true, true, false)
    case ContextWindowExceeded => Policy(CompactThenContinue, 3, true, true, false)
    case Refusal | Safety => Policy(NoStep, 0, true, true, true)
    case MalformedToolCall => Policy(CorrectMalformed, MALFORMED_BUDGET, true, true, false)
    case EmptyReply => Policy(NudgeEmpty, EMPTY_REPLY_BUDGET, true, true, false)
    case Incomplete => Policy(RetryTurn, INCOMPLETE_BUDGET, true, true, true)
    case UnrecognizedStop | UnreportedStop => Policy(NoStep, 0, false, false, false)
    case ProviderFailure(e) =>
      match e
      case RateLimited | Overloaded | Server | Timeout | ContextOverflow =>
        Policy(ExistingErrorPipeline, 0, false, true, false)
      case Quota => Policy(NoStep, 0, false, true, false)
      case NotFound | PolicyError => Policy(NoStep, 0, true, true, false)
      case _ => Policy(NoStep, 0, false, false, false)
  }

  function PolicyOf(o: Outcome): Policy {
    PolicyFor(o.kind, o.truncatedTool)
  }

  /** The rung-0 steps that continue a turn whose content was kept. */
  const CONTINUING: set<Rung0> :=
    {ContinuePause, ContinueTruncated, CompactThenContinue, CorrectMalformed, NudgeEmpty}

  /** The table has no hole: a reply outcome that is not a warning and is not
      discarded always has a continuing rung-0 step, and a discarded one never
      has. So a kept error turn can only continue or climb the ladder. */
  lemma EveryErrorReplyHasAStep(r: Reply)
    requires ClassifyReply(r).Some?
    ensures var o := ClassifyReply(r).value;
            var p := PolicyOf(o);
            SeverityOf(o.kind) != Warning ==> (p.rung0 in CONTINUING <==> !p.discardPartial)
  {
  }

  /** A stop that is taken for an end, known or not. */
  predicate IsEnd(stop: StopReason) {
    stop.EndTurn? || stop.ToolUseStop? || stop.StopSequence? || stop.Unrecognized? || stop.Unreported?
  }

  /** The step of a reply, by why the provider stopped: each stop that is no end
      has a step of its own, or none when the reply was refused or blocked. */
  lemma StepByStop(r: Reply)
    ensures ClassifyReply(r).None? ==> r.stop.EndTurn? || r.stop.ToolUseStop? || r.stop.StopSequence?
    ensures ClassifyReply(r).Some? ==>
              match PolicyOf(ClassifyReply(r).value).rung0
              case ContinuePause => r.stop.PauseTurnStop?
              case ContinueTruncated => r.stop.MaxTokensStop? && !r.truncatedTool
              case RetryRaisedCap => r.stop.MaxTokensStop? && r.truncatedTool
              case CompactThenContinue => r.stop.ContextWindowExceededStop?
              case CorrectMalformed => r.stop.MalformedToolCallStop?
              case RetryTurn => r.stop.IncompleteStop?
              case NudgeEmpty => IsEnd(r.stop) && !HasUsableContent(r.content)
              case NoStep =>
                if SeverityOf(ClassifyReply(r).value.kind) == Warning
                then (r.stop.Unrecognized? || r.stop.Unreported?) && HasUsableContent(r.content)
                else r.stop.RefusalStop? || r.stop.SafetyStop?
              case ExistingErrorPipeline => false
  {
    hide HasUsableContent;
  }

  /** And the class, and so the budget, of each. */
  lemma ClassByStop(r: Reply)
    requires !IsEnd(r.stop)
    ensures ClassifyReply(r).Some?
    ensures var o := ClassifyReply(r).value;
            match r.stop
            case PauseTurnStop => o.kind == PauseTurn && PolicyOf(o).budget == PAUSE_TURN_BUDGET
            case MaxTokensStop =>
              o.kind == MaxTokens &&
              PolicyOf(o).budget == (if r.truncatedTool then RAISED_CAP_BUDGET else TRUNCATION_BUDGET)
            case ContextWindowExceededStop => o.kind == ContextWindowExceeded && PolicyOf(o).budget == TRUNCATION_BUDGET
            case RefusalStop => o.kind == Refusal && PolicyOf(o).budget == 0
            case SafetyStop => o.kind == Safety && PolicyOf(o).budget == 0
            case MalformedToolCallStop => o.kind == MalformedToolCall && PolicyOf(o).budget == MALFORMED_BUDGET
            case IncompleteStop => o.kind == Incomplete && PolicyOf(o).budget == INCOMPLETE_BUDGET
            case _ => false
  {
  }

  /** Where the ladder may go for each class: nowhere for a pause, an unknown stop
      or an error that no other client would mend; only to another provider when
      this one is at fault; anywhere otherwise. */
  lemma RungsByClass(c: OutcomeClass, truncatedTool: bool)
    ensures var p := PolicyFor(c, truncatedTool);
            && (p.rung1 ==> p.rung2)
            && (!p.rung2 <==>
                  || c in {PauseTurn, UnrecognizedStop, UnreportedStop}
                  || (c.ProviderFailure? && c.error in {Auth, Permission, InvalidRequest, TooLarge, UnrecognizedError}))
            && (p.rung2 && !p.rung1 <==>
                  c.ProviderFailure? &&
                  c.error in {RateLimited, Overloaded, Server, Timeout, ContextOverflow, Quota})
            && (p.discardPartial <==> c in {Refusal, Safety, Incomplete} || (c == MaxTokens && truncatedTool))
            && (p.budget > 0 <==> p.rung0 != NoStep && p.rung0 != ExistingErrorPipeline)
  {
  }

  // -------------------------------------------------------- fallback selection

  datatype FallbackEntry = FallbackEntry(provider: Option<string>, model: string)

  datatype Target = Target(provider: string, model: string)

  datatype Hop = Hop(rung: int, target: Target)

  /** An entry without a provider means the provider the attempt started on. */
  function Resolved(e: FallbackEntry, origin: Target): Target {
    Target(if e.provider.Some? then e.provider.value else origin.provider, e.model)
  }

  function RungOf(t: Target, origin: Target): int {
    if t.provider == origin.provider then 1 else 2
  }

  predicate Eligible(e: FallbackEntry, rung: int, origin: Target, current: Target, tried: set<Target>) {
    var t := Resolved(e, origin);
    RungOf(t, origin) == rung && t != current && t != origin && t !in tried
  }

  /** The first eligible entry of `chain` on `rung`. */
  function FirstOnRung(chain: seq<FallbackEntry>, rung: int, origin: Target, current: Target,
                       tried: set<Target>): Option<Target> {
    if chain == [] then None
    else if Eligible(chain[0], rung, origin, current, tried) then Some(Resolved(chain[0], origin))
    else FirstOnRung(chain[1..], rung, origin, current, tried)
  }

  /** Rung 1 before rung 2, in chain order within each. */
  function SelectHop(chain: seq<FallbackEntry>, origin: Target, current: Target, tried: set<Target>,
                     allowRung1: bool, allowRung2: bool): Option<Hop> {
    var first := if allowRung1 then FirstOnRung(chain, 1, origin, current, tried) else None;
    var second := if allowRung2 then FirstOnRung(chain, 2, origin, current, tried) else None;
    if first.Some? then Some(Hop(1, first.value))
    else if second.Some? then Some(Hop(2, second.value))
    else None
  }

  lemma {:induction false} FirstOnRungMeaning(chain: seq<FallbackEntry>, rung: int, origin: Target, current: Target,
                                              tried: set<Target>)
    ensures match FirstOnRung(chain, rung, origin, current, tried)
            case None => forall i | 0 <= i < |chain| :: !Eligible(chain[i], rung, origin, current, tried)
            case Some(t) => exists i | 0 <= i < |chain| ::
              && Eligible(chain[i], rung, origin, current, tried) && Resolved(chain[i], origin) == t
              && forall j | 0 <= j < i :: !Eligible(chain[j], rung, origin, current, tried)
  {
    if chain != [] && !Eligible(chain[0], rung, origin, current, tried) {
      FirstOnRungMeaning(chain[1..], rung, origin, current, tried);
      var rest := FirstOnRung(chain[1..], rung, origin, current, tried);
      if rest.Some? {
        var i :| 0 <= i < |chain[1..]| && Eligible(chain[1..][i], rung, origin, current, tried)
                 && Resolved(chain[1..][i], origin) == rest.value
                 && forall j | 0 <= j < i :: !Eligible(chain[1..][j], rung, origin, current, tried);
        assert chain[i + 1] == chain[1..][i];
        forall j | 0 <= j < i + 1 ensures !Eligible(chain[j], rung, origin, current, tried) {
          if j > 0 {
            assert chain[j] == chain[1..][j - 1];
          }
        }
      } else {
        forall i | 0 <= i < |chain| ensures !Eligible(chain[i], rung, origin, current, tried) {
          if i > 0 {
            assert chain[i] == chain[1..][i - 1];
          }
        }
      }
    }
  }

  /** What a selection means. A hop is the first untried, eligible entry, with
      an allowed rung 1 searched to its end before rung 2; its rung is 1
      exactly on the origin's provider; it is neither the origin, the current
      target nor one tried before. No hop means no eligible entry is left. */
  lemma SelectHopMeaning(chain: seq<FallbackEntry>, origin: Target, current: Target, tried: set<Target>,
                         allowRung1: bool, allowRung2: bool)
    ensures match SelectHop(chain, origin, current, tried, allowRung1, allowRung2)
            case None =>
              forall i, rung | 0 <= i < |chain| && ((rung == 1 && allowRung1) || (rung == 2 && allowRung2)) ::
              !Eligible(chain[i], rung, origin, current, tried)
            case Some(hop) =>
              && hop.rung in {1, 2} && (hop.rung == 1 ==> allowRung1) && (hop.rung == 2 ==> allowRung2)
              && (hop.rung == 1 <==> hop.target.provider == origin.provider)
              && hop.target != origin && hop.target != current && hop.target !in tried
              && (hop.rung == 2 && allowRung1 ==>
                    forall i | 0 <= i < |chain| :: !Eligible(chain[i], 1, origin, current, tried))
              && exists i | 0 <= i < |chain| ::
                   && Resolved(chain[i], origin) == hop.target
                   && forall j | 0 <= j < i :: !Eligible(chain[j], hop.rung, origin, current, tried)
  {
    FirstOnRungMeaning(chain, 1, origin, current, tried);
    FirstOnRungMeaning(chain, 2, origin, current, tried);
  }

  /** One request for a hop: the chain, where the attempt is now, and the rungs
      the outcome's policy allows. */
  datatype HopCall = HopCall(chain: seq<FallbackEntry>, current: Target, allowRung1: bool, allowRung2: bool)

  /** The targets that a sequence of requests selects, oldest first. */
  function Selections(origin: Target, calls: seq<HopCall>): seq<Target> {
    if calls == [] then []
    else
      var before := Selections(origin, DropLast(calls));
      var c := Last(calls);
      match SelectHop(c.chain, origin, c.current, TargetsOf(before), c.allowRung1, c.allowRung2)
      case None => before
      case Some(hop) => before + [hop.target]
  }

  function TargetsOf(targets: seq<Target>): set<Target> {
    set t | t in targets
  }

  /** Over any sequence of requests no target is selected twice, and the
      origin never is. */
  lemma {:induction false} SelectionsDistinct(origin: Target, calls: seq<HopCall>)
    ensures Distinct(Selections(origin, calls))
    ensures origin !in Selections(origin, calls)
  {
    if calls != [] {
      SelectionsDistinct(origin, DropLast(calls));
      var c := Last(calls);
      SelectHopMeaning(c.chain, origin, c.current, TargetsOf(Selections(origin, DropLast(calls))), c.allowRung1,
          c.allowRung2);
    }
  }

  /** One more request adds what it selects. */
  lemma SelectionsNext(origin: Target, calls: seq<HopCall>, c: HopCall)
    ensures var hop := SelectHop(c.chain, origin, c.current, TargetsOf(Selections(origin, calls)), c.allowRung1,
            c.allowRung2);
            TargetsOf(Selections(origin, calls + [c])) ==
            TargetsOf(Selections(origin, calls)) + (if hop.Some? then {hop.value.target} else {})
  {
    assert DropLast(calls + [c]) == calls;
  }

  // ----------------------------------------------------------------- state

  /** The attempts at a step that a logical turn has used. */
  function Used(budgets: map<(nat, Rung0), nat>, chain: nat, step: Rung0): nat {
    if (chain, step) in budgets then budgets[(chain, step)] else 0
  }

  class RecoveryState {
    var actions: nat
    /** Attempts used, by the turn a logical turn started on and the step. */
    var budgets: map<(nat, Rung0), nat>
    var tried: set<Target>
    var outcomes: nat
    const origin: Target
    /** The requests that selected a hop, oldest first. */
    ghost var requests: seq<HopCall>

    ghost predicate Valid()
      reads this
    {
      && actions <= MAX_RECOVERY_ACTIONS
      && tried == TargetsOf(Selections(origin, requests))
    }

    lemma WithinCap()
      requires Valid()
      ensures actions <= MAX_RECOVERY_ACTIONS
    {
    }

    constructor WithOrigin(provider: string, model: string)
      ensures Valid() && actions == 0 && outcomes == 0 && budgets == map[] && tried == {}
      ensures origin == Target(provider, model)
    {
      actions, budgets, tried, outcomes := 0, map[], {}, 0;
      origin := Target(provider, model);
      requests := [];
    }

    method TakeAction() returns (ok: bool)
      requires Valid()
      modifies `actions
      ensures Valid()
      ensures ok <==> old(actions) < MAX_RECOVERY_ACTIONS
      ensures actions == old(actions) + (if ok then 1 else 0)
    {
      if actions >= MAX_RECOVERY_ACTIONS {
        return false;
      }
      actions := actions + 1;
      ok := true;
    }

    /** One more attempt at `kind` for a logical turn, while under `budget`. */
    method TryBudget(chain: nat, kind: Rung0, budget: nat) returns (attempt: Option<nat>)
      requires Valid()
      modifies `budgets
      ensures Valid()
      ensures var used := Used(old(budgets), chain, kind);
              && (attempt.None? <==> used >= budget)
              && attempt == (if used >= budget then None else Some(used + 1))
              && budgets == old(budgets)[(chain, kind) := if used >= budget then used else used + 1]
    {
      var used := if (chain, kind) in budgets then budgets[(chain, kind)] else 0;
      budgets := budgets[(chain, kind) := used];
      if used >= budget {
        return None;
      }
      budgets := budgets[(chain, kind) := used + 1];
      attempt := Some(used + 1);
    }

    /** The first eligible entry of `chain` on `rung`: the scan of one rung. */
    method ScanRung(chain: seq<FallbackEntry>, rung: int, current: Target) returns (found: Option<Target>)
      ensures found == FirstOnRung(chain, rung, origin, current, tried)
    {
      var i := 0;
      while i < |chain|
        invariant 0 <= i <= |chain|
        invariant FirstOnRung(chain, rung, origin, current, tried) ==
                  FirstOnRung(chain[i..], rung, origin, current, tried)
      {
        if Eligible(chain[i], rung, origin, current, tried) {
          return Some(Resolved(chain[i], origin));
        }
        i := i + 1;
      }
      found := None;
    }

    /** The next untried fallback, marked tried. */
    method NextHop(chain: seq<FallbackEntry>, current: Target, allowRung1: bool, allowRung2: bool)
      returns (hop: Option<Hop>)
      requires Valid()
      modifies `tried, `requests
      ensures Valid()
      ensures hop == SelectHop(chain, origin, current, old(tried), allowRung1, allowRung2)
      ensures tried == old(tried) + (if hop.Some? then {hop.value.target} else {})
      ensures hop.None? ==> requests == old(requests)
    {
      var target: Option<Target> := None;
      var rung := 1;
      if allowRung1 {
        target := ScanRung(chain, rung, current);
      }
      if target.None? {
        rung := 2;
        if allowRung2 {
          target := ScanRung(chain, rung, current);
        }
      }
      if target.None? {
        return None;
      }
      hop := Some(Hop(rung, target.value));
      SelectionsNext(origin, requests, HopCall(chain, current, allowRung1, allowRung2));
      tried := tried + {target.value};
      requests := requests + [HopCall(chain, current, allowRung1, allowRung2)];
    }

    /** A hop charged as one action. At the cap, or with nothing left to
        select, the state does not change at all. */
    method TakeHop(chain: seq<FallbackEntry>, current: Target, allowRung1: bool, allowRung2: bool)
      returns (hop: Option<Hop>)
      requires Valid()
      modifies `actions, `tried, `requests
      ensures Valid()
      ensures old(actions) >= MAX_RECOVERY_ACTIONS ==> hop.None?
      ensures old(actions) < MAX_RECOVERY_ACTIONS ==>
                hop == SelectHop(chain, origin, current, old(tried), allowRung1, allowRung2)
      ensures hop.None? ==> actions == old(actions) && tried == old(tried) && requests == old(requests)
      ensures hop.Some? ==> actions == old(actions) + 1 && tried == old(tried) + {hop.value.target}
    {
      if actions >= MAX_RECOVERY_ACTIONS {
        return None;
      }
      hop := NextHop(chain, current, allowRung1, allowRung2);
      if hop.Some? {
        var _ := TakeAction();
      }
    }

    /** The number of the next outcome of the run, from 1. */
    method NextOutcomeId() returns (id: nat)
      requires Valid()
      modifies `outcomes
      ensures Valid()
      ensures id == outcomes == old(outcomes) + 1
    {
      outcomes := outcomes + 1;
      id := outcomes;
    }
  }

  /** What rung 0 may do about one outcome. */
  datatype Rung0Step = Act(attempt: nat) | OverBudget | Capped

  /** Ask for one more attempt at a rung-0 step. It is granted while both the
      budget of its logical turn and the run's cap allow it, and only then does
      it cost an action. */
  method TakeRung0Step(recovery: RecoveryState, chain: nat, p: Policy) returns (step: Rung0Step)
    requires recovery.Valid()
    modifies recovery`budgets, recovery`actions
    ensures recovery.Valid()
    ensures recovery.actions == old(recovery.actions) + (if step.Act? then 1 else 0)
    ensures var used := Used(old(recovery.budgets), chain, p.rung0);
            && (step.OverBudget? <==> used >= p.budget)
            && (step.Capped? <==> used < p.budget && old(recovery.actions) == MAX_RECOVERY_ACTIONS)
            && (step.Act? ==> step.attempt == used + 1)
            && recovery.budgets ==
                 old(recovery.budgets)[(chain, p.rung0) := if step.OverBudget? then used else used + 1]
  {
    var attempt := recovery.TryBudget(chain, p.rung0, p.budget);
    if attempt.None? {
      return OverBudget;
    }
    var ok := recovery.TakeAction();
    step := if ok then Act(attempt.value) else Capped;
  }

  // ------------------------------------------------------------------ notes
  //
  // Long texts are put together from short literals: the verifier reads single
  // characters off a short literal, and loses its way in a long one.

  function TruncationNote(): string {
    "Your previous reply was cut " + "off at the output limit. " +
    "Continue exactly where you " + "stopped; don't repeat what you " + "already wrote."
  }

  function EmptyReplyNote(): string {
    "Your last reply was empty. " + "Continue the task."
  }

  const MALFORMED_NOTE_PREFIX: string := "Your last tool call could not be used:"

  function MalformedNote(name: string, error: string): string {
    MALFORMED_NOTE_PREFIX + " " + name + ": " + error + ". Call the tool again with valid arguments."
  }

  function RecoveryRetryNote(title: string, provider: string, model: string): string {
    "A previous attempt at this task " + "stopped (" + title + "). You are continuing on " + provider + "/" + model +
    "; check the current state, then continue the task."
  }
}

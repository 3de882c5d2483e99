/**
 File descriptors: raising the process limit, and pacing the start of agent runs
 while it is nearly used up.
 */
module FdBudget {
  import opened Wrappers
  import opened Conversation

  const U64_MAX: nat := 0xFFFF_FFFF_FFFF_FFFF
  const DEFAULT_TARGET: nat := 10_240

  function Min(a: nat, b: nat): nat {
    if a < b then a else b
  }

  function MinOpt(a: Option<nat>, b: Option<nat>): Option<nat> {
    match (a, b)
    case (Some(x), Some(y)) => Some(Min(x, y))
    case (None, y) => y
    case (x, None) => x
  }

  function Capped(v: nat, cap: Option<nat>): nat {
    if cap.Some? then Min(v, cap.value) else v
  }

  // ------------------------------------------------------------------ growth

  /** The next limit: double, in 64 bits, capped by the hard limit and the
      configured ceiling; `None` when that is no more than the limit there is. */
  function NextGrow(current: nat, hard: Option<nat>, ceiling: Option<nat>): Option<nat> {
    var doubled := Min(current * 2, U64_MAX);
    var target := Capped(Capped(doubled, hard), ceiling);
    if target > current then Some(target) else None
  }

  /** As high as the limit can be raised at all. */
  function Top(hard: Option<nat>, ceiling: Option<nat>): nat {
    Capped(Capped(U64_MAX, hard), ceiling)
  }

  /** Growing is possible exactly below the top, and either doubles the limit or
      reaches the top; it never passes it. */
  lemma GrowthStep(current: nat, hard: Option<nat>, ceiling: Option<nat>)
    requires current > 0
    ensures NextGrow(current, hard, ceiling).Some? <==> current < Top(hard, ceiling)
    ensures match NextGrow(current, hard, ceiling)
            case None => true
            case Some(target) =>
              current < target <= Top(hard, ceiling) && (target == current * 2 || target == Top(hard, ceiling))
  {
  }

  /** The limit after growing `n` times, as long as it grows. */
  function Grown(current: nat, hard: Option<nat>, ceiling: Option<nat>, n: nat): nat {
    if n == 0 then current
    else
      var before := Grown(current, hard, ceiling, n - 1);
      var next := NextGrow(before, hard, ceiling);
      if next.Some? then next.value else before
  }

  function Power2(n: nat): nat {
    if n == 0 then 1 else 2 * Power2(n - 1)
  }

  lemma {:induction false} GrownAtLeast(current: nat, hard: Option<nat>, ceiling: Option<nat>, n: nat)
    requires 0 < current <= Top(hard, ceiling)
    ensures Min(Top(hard, ceiling), Power2(n)) <= Grown(current, hard, ceiling, n) <= Top(hard, ceiling)
    ensures current <= Grown(current, hard, ceiling, n)
  {
    if n > 0 {
      GrownAtLeast(current, hard, ceiling, n - 1);
      GrowthStep(Grown(current, hard, ceiling, n - 1), hard, ceiling);
    }
  }

  lemma Power2Of64()
    ensures Power2(64) == U64_MAX + 1
  {
    assert Power2(4) == 16;
    Power2Adds(4, 4);
    Power2Adds(8, 8);
    Power2Adds(16, 16);
    Power2Adds(32, 32);
  }

  lemma {:induction false} Power2Adds(a: nat, b: nat)
    ensures Power2(a + b) == Power2(a) * Power2(b)
  {
    if b > 0 {
      Power2Adds(a, b - 1);
      assert Power2(a + b) == 2 * Power2(a + (b - 1));
    }
  }

  /** From any positive limit, 64 doublings reach the top when nothing refuses,
      and there growth stops. */
  lemma GrowthEndsAtTop(current: nat, hard: Option<nat>, ceiling: Option<nat>)
    requires 0 < current <= Top(hard, ceiling)
    ensures Grown(current, hard, ceiling, 64) == Top(hard, ceiling)
    ensures NextGrow(Grown(current, hard, ceiling, 64), hard, ceiling).None?
  {
    GrownAtLeast(current, hard, ceiling, 64);
    Power2Of64();
    GrowthStep(Grown(current, hard, ceiling, 64), hard, ceiling);
  }

  // ----------------------------------------------------------------- startup

  /** The limits to try at startup, first choice first. */
  method StartupCandidates(current: Option<nat>, hard: Option<nat>, requested: Option<nat>) returns (out: seq<nat>)
    ensures out == Candidates(current, hard, requested)
  {
    if current.None? {
      return [];
    }
    var first := Capped(if requested.Some? then requested.value else DEFAULT_TARGET, hard);
    out := [first];
    var fallback := Capped(Min(DEFAULT_TARGET, first), hard);
    if fallback != first {
      out := [first, fallback];
    }
    var kept: seq<nat> := [];
    for i := 0 to |out|
      invariant kept == Above(out[..i], current.value)
    {
      assert DropLast(out[..i + 1]) == out[..i];
      if out[i] > current.value {
        kept := kept + [out[i]];
      }
    }
    assert out[..|out|] == out;
    out := kept;
  }

  function Above(xs: seq<nat>, floor: nat): seq<nat> {
    if xs == [] then [] else Above(DropLast(xs), floor) + (if Last(xs) > floor then [Last(xs)] else [])
  }

  function Candidates(current: Option<nat>, hard: Option<nat>, requested: Option<nat>): seq<nat> {
    if current.None? then []
    else
      var first := Capped(if requested.Some? then requested.value else DEFAULT_TARGET, hard);
      var fallback := Capped(Min(DEFAULT_TARGET, first), hard);
      Above(if fallback != first then [first, fallback] else [first], current.value)
  }

  lemma AboveTwo(a: nat, b: nat, floor: nat)
    ensures Above([a], floor) == if a > floor then [a] else []
    ensures Above([a, b], floor) == (if a > floor then [a] else []) + (if b > floor then [b] else [])
  {
    assert DropLast([a]) == [] && DropLast([a, b]) == [a];
  }

  /** Startup only raises, never past the hard limit; it tries what was asked
      for first, and the default only below that. */
  lemma CandidatesRaise(current: Option<nat>, hard: Option<nat>, requested: Option<nat>)
    ensures forall c | c in Candidates(current, hard, requested) ::
              && c > current.value && (hard.Some? ==> c <= hard.value)
              && (requested.Some? ==> c <= requested.value) && (requested.None? ==> c <= DEFAULT_TARGET)
    ensures |Candidates(current, hard, requested)| <= 2
    ensures |Candidates(current, hard, requested)| == 2 ==>
              Candidates(current, hard, requested)[1] == DEFAULT_TARGET < Candidates(current, hard, requested)[0]
    ensures |Candidates(current, hard, requested)| == 2 <==>
              && current.Some? && current.value < DEFAULT_TARGET && requested.Some? && DEFAULT_TARGET < requested.value
              && (hard.Some? ==> DEFAULT_TARGET < hard.value)
    ensures current.Some? &&
            Capped(if requested.Some? then requested.value else DEFAULT_TARGET, hard) > current.value ==>
              Candidates(current, hard, requested) != [] &&
              Candidates(current, hard, requested)[0] ==
                  Capped(if requested.Some? then requested.value else DEFAULT_TARGET, hard)
  {
    if current.Some? {
      var first := Capped(if requested.Some? then requested.value else DEFAULT_TARGET, hard);
      var fallback := Capped(Min(DEFAULT_TARGET, first), hard);
      AboveTwo(first, fallback, current.value);
      hide Above;
    }
  }

  // ------------------------------------------------------------- the process

  /** The process limit and the two globals that steer its growth. `refuses`
      says which `setrlimit` calls the system turns down. */
  class ProcessLimit {
    const hard: Option<nat>
    const osCap: Option<nat>
    const refuses: nat -> bool
    var soft: Option<nat>
    var ceiling: nat
    var exhausted: bool
    var calls: nat

    ghost predicate Valid()
      reads this
    {
      soft.Some? ==> 0 < soft.value <= U64_MAX
    }

    constructor (soft: Option<nat>, hard: Option<nat>, osCap: Option<nat>, refuses: nat -> bool)
      requires soft.Some? ==> 0 < soft.value <= U64_MAX
      ensures Valid() && this.soft == soft && this.hard == hard && this.osCap == osCap && ceiling == 0 && !exhausted
    {
      this.soft, this.hard, this.osCap, this.refuses := soft, hard, osCap, refuses;
      ceiling, exhausted, calls := 0, false, 0;
    }

    function Current(): Option<nat>
      reads this
    {
      MinOpt(soft, osCap)
    }

    function Hard(): Option<nat> {
      MinOpt(hard, osCap)
    }

    function Ceiling(): Option<nat>
      reads this
    {
      if ceiling == 0 then None else Some(ceiling)
    }

    /** How much the limit can still be raised. */
    ghost function Headroom(): nat
      reads this
    {
      if exhausted || Current().None? || Current().value >= Top(Hard(), Ceiling()) then 0
      else Top(Hard(), Ceiling()) - Current().value
    }

    method TrySetSoft(target: nat) returns (ok: bool)
      requires Valid() && 0 < target <= U64_MAX
      modifies `soft, `calls
      ensures Valid() && soft == (if ok then Some(target) else old(soft))
      ensures ok <==> !refuses(old(calls))
    {
      ok := !refuses(calls);
      calls := calls + 1;
      if ok {
        soft := Some(target);
      }
    }

    /** Raise the limit at startup, and record the ceiling for growth. The
        first candidate that is not refused is taken; nothing is ever lowered. */
    method Configure(requested: Option<nat>) returns (before: Option<nat>, after: Option<nat>)
      requires Valid() && (requested.Some? ==> requested.value <= U64_MAX)
      modifies this
      ensures Valid() && before == old(Current()) && after == Current() && !exhausted
      ensures ceiling == (if requested.Some? then requested.value else 0)
      ensures soft == old(soft) || (soft.Some? && soft.value in Candidates(before, Hard(), requested))
      ensures before.Some? ==> after.Some? && before.value <= after.value
      ensures (forall n :: !refuses(n)) && Candidates(before, Hard(), requested) != [] ==>
                after == Some(Candidates(before, Hard(), requested)[0])
    {
      ceiling := if requested.Some? then requested.value else 0;
      exhausted := false;
      before := Current();
      CandidatesRaise(before, Hard(), requested);
      var targets := StartupCandidates(before, Hard(), requested);
      hide Candidates;
      var i := 0;
      while i < |targets|
        invariant 0 <= i <= |targets|
        invariant Valid() && soft == old(soft) && !exhausted &&
                  ceiling == (if requested.Some? then requested.value else 0)
        invariant i > 0 ==> exists n :: refuses(n)
      {
        assert targets[i] in targets;
        ghost var call := calls;
        var ok := TrySetSoft(targets[i]);
        if ok {
          break;
        }
        assert refuses(call);
        i := i + 1;
      }
      after := Current();
    }

    /** Raise the limit under pressure. It grows to the next step, or not at
        all, and a refusal or the top is the end of growing for good. */
    method Grow() returns (grew: bool)
      requires Valid()
      modifies this
      ensures Valid() && ceiling == old(ceiling)
      ensures grew ==>
                && !exhausted && old(Current()).Some? && Current().Some? &&
                     Current() == NextGrow(old(Current()).value, Hard(), Ceiling())
                && Current().value > old(Current()).value && Headroom() < old(Headroom())
      ensures !grew ==> soft == old(soft) && (exhausted || old(Current()).None?)
      ensures !grew ==> Current() == old(Current()) && Headroom() <= old(Headroom())
      ensures old(exhausted) ==> !grew
      ensures !old(exhausted) && (forall n :: !refuses(n)) && old(Current()).Some? ==>
                (grew <==> old(Current()).value < Top(Hard(), Ceiling()))
    {
      if exhausted || Current().None? {
        return false;
      }
      var current := Current().value;
      var target := NextGrow(current, Hard(), Ceiling());
      if current > 0 {
        GrowthStep(current, Hard(), Ceiling());
      }
      if target.Some? {
        grew := TrySetSoft(target.value);
      } else {
        grew := false;
      }
      if !grew {
        exhausted := true;
      }
    }
  }

  // ------------------------------------------------------------------ pacing

  predicate UnderHighWater(open: nat, limit: nat, percent: nat) {
    open * 100 < limit * percent
  }

  /** The mark: usage is under it exactly when the open share of the limit is below
      the percentage. So more descriptors or a lower limit never bring it under,
      and full use never is, for any percentage up to 100. */
  lemma HighWaterMeaning(open: nat, limit: nat, percent: nat)
    ensures limit > 0 ==>
              (UnderHighWater(open, limit, percent) <==> open as real / limit as real < percent as real / 100.0)
    ensures limit == 0 ==> !UnderHighWater(open, limit, percent)
    ensures open >= limit && percent <= 100 ==> !UnderHighWater(open, limit, percent)
    ensures forall open': nat, limit': nat | open' <= open && limit <= limit' ::
              UnderHighWater(open, limit, percent) ==> UnderHighWater(open', limit', percent)
  {
    hide UnderHighWater;
    if limit > 0 {
      SharesCompare(open, limit, percent);
    }
    forall open': nat, limit': nat | open' <= open && limit <= limit' && UnderHighWater(open, limit, percent)
      ensures UnderHighWater(open', limit', percent) {
      StaysUnder(open, limit, open', limit', percent);
    }
    NeverFull(open, limit, percent);
  }

  lemma StaysUnder(open: nat, limit: nat, less: nat, more: nat, percent: nat)
    requires UnderHighWater(open, limit, percent) && less <= open && limit <= more
    ensures UnderHighWater(less, more, percent)
  {
    MoreRoom(limit, more, percent);
  }

  lemma NeverFull(open: nat, limit: nat, percent: nat)
    ensures limit == 0 || (open >= limit && percent <= 100) ==> !UnderHighWater(open, limit, percent)
  {
    if open >= limit && percent <= 100 {
      FullUse(limit, percent);
    }
  }

  lemma SharesCompare(open: nat, limit: nat, percent: nat)
    requires limit > 0
    ensures UnderHighWater(open, limit, percent) <==> open as real / limit as real < percent as real / 100.0
  {
    var share, mark := open as real / limit as real, percent as real / 100.0;
    assert share * limit as real == open as real && mark * 100.0 == percent as real;
    ShareIsBelow(share, mark, limit);
    assert (limit * percent) as real == limit as real * percent as real;
  }

  lemma ShareIsBelow(share: real, mark: real, limit: nat)
    requires limit > 0
    ensures share < mark <==> share * limit as real * 100.0 < limit as real * (mark * 100.0)
  {
    if share < mark {
      assert (mark - share) * limit as real > 0.0;
    } else {
      assert (share - mark) * limit as real >= 0.0;
    }
  }

  lemma MoreRoom(limit: nat, more: nat, percent: nat)
    requires limit <= more
    ensures limit * percent <= more * percent
  {
  }

  lemma FullUse(limit: nat, percent: nat)
    requires percent <= 100
    ensures limit * percent <= limit * 100
  {
  }

  function NextBackoff(backoff: nat, maxBackoff: nat): nat {
    Min(backoff * 2, maxBackoff)
  }

  /** The length of the `k`-th sleep: twice the one before, up to the longest. */
  function SleepAt(p: Pacing, k: nat): nat {
    if k == 0 then p.initialBackoff else NextBackoff(SleepAt(p, k - 1), p.maxBackoff)
  }

  lemma NextSleep(p: Pacing, k: nat)
    ensures SleepAt(p, 0) == p.initialBackoff
    ensures SleepAt(p, k + 1) == NextBackoff(SleepAt(p, k), p.maxBackoff)
  {
  }

  /** Sleeps start at the initial length and double until the longest, where they
      stay. */
  lemma {:induction false} SleepsDouble(p: Pacing, k: nat)
    requires p.initialBackoff <= p.maxBackoff
    ensures SleepAt(p, k) == Min(p.initialBackoff * Power2(k), p.maxBackoff)
  {
    hide NextBackoff, Min;
    StartsWithin(p);
    if k > 0 {
      SleepsDouble(p, k - 1);
      var sleep := p.initialBackoff * Power2(k - 1);
      assert p.initialBackoff * Power2(k) == 2 * sleep by {
        assert Power2(k) == 2 * Power2(k - 1);
      }
      DoubledToLongest(sleep, p.maxBackoff);
    }
  }

  lemma StartsWithin(p: Pacing)
    requires p.initialBackoff <= p.maxBackoff
    ensures Min(p.initialBackoff * Power2(0), p.maxBackoff) == p.initialBackoff
  {
  }

  lemma DoubledToLongest(sleep: nat, longest: nat)
    ensures NextBackoff(Min(sleep, longest), longest) == Min(2 * sleep, longest)
  {
  }

  datatype Pacing = Pacing(percent: nat, initialBackoff: nat, maxBackoff: nat, maxWait: nat, attempts: nat)

  /** Wait until usage is under the mark or the pacing window is over. `probe`
      reads the usage; `clock` is the time that passes during a sleep of the
      given length. The limit is always grown before anything waits. */
  method AdmitWith(p: Pacing, limit: ProcessLimit, probe: nat -> Option<(nat, nat)>, clock: (nat, nat) -> nat)
    returns (waited: nat, ghost sleeps: nat, ghost probes: nat, ghost lengths: seq<nat>)
    requires limit.Valid()
    requires forall n, backoff :: clock(n, backoff) > 0
    modifies limit
    ensures limit.Valid() && probes > 0
    ensures var last := probe(probes - 1);
            last.None? || UnderHighWater(last.value.0, last.value.1, p.percent) || waited >= p.maxWait
    ensures forall n | 0 <= n < probes - 1 ::
              probe(n).Some? && !UnderHighWater(probe(n).value.0, probe(n).value.1, p.percent)
    ensures sleeps <= p.maxWait && probes <= sleeps + old(limit.Headroom()) + 1
    ensures sleeps > 0 ==> limit.exhausted || limit.Current().None?
    ensures |lengths| == sleeps && forall k | 0 <= k < sleeps :: lengths[k] == SleepAt(p, k)
  {
    hide NextBackoff, SleepAt, UnderHighWater, ProcessLimit.Valid, ProcessLimit.Headroom, ProcessLimit.Current;
    NextSleep(p, 0);
    var backoff := p.initialBackoff;
    var n := 0;
    waited, sleeps, probes, lengths := 0, 0, 0, [];
    while true
      invariant limit.Valid() && n == probes && sleeps <= waited && (sleeps > 0 ==> waited - sleeps >= 0)
      invariant sleeps <= p.maxWait
      invariant |lengths| == sleeps && backoff == SleepAt(p, sleeps)
      invariant forall k | 0 <= k < sleeps :: lengths[k] == SleepAt(p, k)
      invariant forall k | 0 <= k < probes ::
                probe(k).Some? && !UnderHighWater(probe(k).value.0, probe(k).value.1, p.percent)
      invariant probes + limit.Headroom() <= sleeps + old(limit.Headroom())
      invariant sleeps > 0 ==> limit.exhausted || limit.Current().None?
      decreases limit.Headroom(), if waited < p.maxWait then p.maxWait - waited else 0
    {
      var usage := probe(n);
      n := n + 1;
      probes := probes + 1;
      if usage.None? || UnderHighWater(usage.value.0, usage.value.1, p.percent) {
        return;
      }
      var grew := limit.Grow();
      if !grew {
        if waited >= p.maxWait {
          return;
        }
        waited := waited + clock(n, backoff);
        NextSleep(p, sleeps);
        sleeps, lengths := sleeps + 1, lengths + [backoff];
        backoff := NextBackoff(backoff, p.maxBackoff);
      }
    }
  }

  datatype Load = Loaded | OutOfDescriptors | FailedOtherwise

  /** Load an agent again while only descriptors were missing: at least once,
      at most `attempts` times, and the last load is the answer. */
  method RetryOnFdExhaustion(p: Pacing, limit: ProcessLimit, load: nat -> Load)
    returns (r: Load, loads: nat, ghost grown: nat, ghost lengths: seq<nat>)
    requires limit.Valid()
    modifies limit
    ensures limit.Valid()
    ensures 1 <= loads <= (if p.attempts > 1 then p.attempts else 1) && r == load(loads - 1)
    ensures forall n | 0 <= n < loads - 1 :: load(n) == OutOfDescriptors
    ensures r == OutOfDescriptors ==> loads >= p.attempts
    // Between two loads the limit was raised, or else there was a sleep.
    ensures loads == 1 + grown + |lengths| && grown + limit.Headroom() <= old(limit.Headroom())
    ensures lengths != [] ==> limit.exhausted || limit.Current().None?
    ensures forall k | 0 <= k < |lengths| :: lengths[k] == SleepAt(p, k)
  {
    hide NextBackoff, SleepAt, ProcessLimit.Valid, ProcessLimit.Headroom, ProcessLimit.Current;
    NextSleep(p, 0);
    var backoff := p.initialBackoff;
    var attempt: nat := 1;
    loads, grown, lengths := 0, 0, [];
    while true
      invariant limit.Valid() && loads == attempt - 1
      invariant loads == grown + |lengths| && grown + limit.Headroom() <= old(limit.Headroom())
      invariant lengths != [] ==> limit.exhausted || limit.Current().None?
      invariant backoff == SleepAt(p, |lengths|) && forall k | 0 <= k < |lengths| :: lengths[k] == SleepAt(p, k)
      invariant attempt <= (if p.attempts > 1 then p.attempts else 1)
      invariant forall n | 0 <= n < loads :: load(n) == OutOfDescriptors
      decreases p.attempts - attempt
    {
      r := load(loads);
      loads := loads + 1;
      if r != OutOfDescriptors || attempt >= p.attempts {
        return;
      }
      var grew := limit.Grow();
      if grew {
        grown := grown + 1;
      } else {
        NextSleep(p, |lengths|);
        lengths := lengths + [backoff];
        backoff := NextBackoff(backoff, p.maxBackoff);
      }
      attempt := attempt + 1;
    }
  }
}

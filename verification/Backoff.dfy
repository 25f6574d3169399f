/**
 Retry backoff: the deterministic exponential wait, its equal jitter, and the episode that
 hands waits out under an attempt cap and a total cap. Durations are nanoseconds, the
 machine integers saturate as the source's do.
 */
module Backoff {
  import opened Common

  const MILLI: nat := 1_000_000
  const U32_MAX: nat := 0xffff_ffff
  const U128_MAX: nat := 0xffff_ffff_ffff_ffff_ffff_ffff_ffff_ffff

  /** The longest duration: `u64::MAX` seconds and all but one nanosecond of another. */
  const DURATION_MAX: nat := U64_MAX * 1_000_000_000 + 999_999_999

  type U32 = n: nat | n <= U32_MAX

  datatype Policy = Policy(initial: nat, maximum: nat, maxAttempts: Option<U32>, maxTotal: Option<nat>, jitter: bool)

  datatype Episode = Episode(attempt: U32, waited: nat)

  const FIRST := Episode(0, 0)

  function Saturate(n: nat, max: nat): nat { if n <= max then n else max }

  /** `2 ^ (attempt - 1)` in 128 bits. */
  function Factor(attempt: nat): nat { Saturate(Pow2(Monus(attempt, 1)), U128_MAX) }

  /** The unjittered wait: the initial one doubled with each attempt, in whole milliseconds, up to the ceiling. */
  function Wait(p: Policy, attempt: nat): nat {
    var millis := Min(Saturate(p.initial / MILLI * Factor(attempt), U128_MAX), p.maximum / MILLI);
    Saturate(millis, U64_MAX) * MILLI
  }

  lemma {:induction false} PowGrows(a: nat, b: nat)
    requires a <= b
    ensures 1 <= Pow2(a) <= Pow2(b)
    decreases b
  {
    if a < b {
      PowGrows(a, b - 1);
    } else if a > 0 {
      PowGrows(a - 1, b - 1);
    }
  }

  lemma ProductGrows(x: nat, a: nat, b: nat)
    requires a <= b
    ensures x * a <= x * b
  {}

  /** The wait never shrinks as attempts mount, and never exceeds the ceiling. */
  lemma WaitGrowsToItsCeiling(p: Policy, a: nat, b: nat)
    requires a <= b
    ensures Wait(p, a) <= Wait(p, b) <= p.maximum
  {
    PowGrows(Monus(a, 1), Monus(b, 1));
    ProductGrows(p.initial / MILLI, Factor(a), Factor(b));
    assert p.maximum / MILLI * MILLI <= p.maximum;
  }

  lemma AtLeastItself(x: nat, f: nat)
    requires 1 <= f
    ensures x <= x * f
  {}

  lemma WaitAtLeastAMilli(p: Policy, attempt: nat)
    requires MILLI <= p.initial && MILLI <= p.maximum
    ensures MILLI <= Wait(p, attempt)
  {
    PowGrows(0, Monus(attempt, 1));
    AtLeastItself(p.initial / MILLI, Factor(attempt));
    assert 1 <= p.initial / MILLI && 1 <= p.maximum / MILLI;
  }

  /** Equal jitter over a draw of 64 bits: half is kept, the rest drawn. */
  function Jittered(wait: nat, draw: U64): nat {
    var total := Saturate(wait, U64_MAX);
    var half := total / 2;
    half + draw % Max(total - half, 1)
  }

  /** A wait below 2^64 nanoseconds stays between its half and its whole. */
  lemma JitterWindow(wait: nat, draw: U64)
    ensures Jittered(wait, draw) <= wait
    ensures wait <= U64_MAX ==> wait / 2 <= Jittered(wait, draw)
  {}

  function Spread(p: Policy, attempt: nat, draw: U64): nat {
    if p.jitter then Jittered(Wait(p, attempt), draw) else Wait(p, attempt)
  }

  predicate OutOfAttempts(p: Policy, attempt: nat) { p.maxAttempts.Some? && attempt > p.maxAttempts.value }

  predicate OutOfTime(p: Policy, waited: nat) { p.maxTotal.Some? && p.maxTotal.value <= waited }

  /** One call: it counts whether or not a cap answers it with nothing to wait for. */
  function Next(p: Policy, e: Episode, draw: U64): (Option<nat>, Episode) {
    var attempt: U32 := Saturate(e.attempt + 1, U32_MAX);
    if OutOfAttempts(p, attempt) || OutOfTime(p, e.waited) then (None, Episode(attempt, e.waited))
    else
      var spread := Spread(p, attempt, draw);
      var wait := if p.maxTotal.Some? then Min(spread, p.maxTotal.value - e.waited) else spread;
      (Some(wait), Episode(attempt, Saturate(e.waited + wait, DURATION_MAX)))
  }

  // ---- an episode ----

  /** The episode after one call for each draw. */
  function After(p: Policy, draws: seq<U64>): Episode
    decreases |draws|
  {
    if draws == [] then FIRST else Next(p, After(p, draws[..|draws| - 1]), draws[|draws| - 1]).1
  }

  function Answer(p: Policy, draws: seq<U64>): Option<nat>
    requires draws != []
  {
    Next(p, After(p, draws[..|draws| - 1]), draws[|draws| - 1]).0
  }

  /** The waits handed out. */
  function HandedOut(p: Policy, draws: seq<U64>): nat
    decreases |draws|
  {
    if draws == [] then 0
    else
      var a := Answer(p, draws);
      HandedOut(p, draws[..|draws| - 1]) + if a.Some? then a.value else 0
  }

  /** What the caps keep: the calls counted, the waits summed, the total never passed. */
  lemma {:induction false} EpisodeKeeps(p: Policy, draws: seq<U64>)
    ensures After(p, draws).attempt == Saturate(|draws|, U32_MAX)
    ensures After(p, draws).waited == Saturate(HandedOut(p, draws), DURATION_MAX)
    ensures p.maxTotal.Some? ==> After(p, draws).waited <= p.maxTotal.value
    decreases |draws|
  {
    if draws != [] {
      EpisodeKeeps(p, draws[..|draws| - 1]);
    }
  }

  /** Once an episode has ended it stays ended until reset, however many calls follow. */
  lemma {:induction false} EndedStaysEnded(p: Policy, draws: seq<U64>, more: seq<U64>)
    requires draws != [] && Answer(p, draws).None?
    ensures Answer(p, draws + more).None?
    decreases |more|
  {
    if more == [] {
      assert draws + more == draws;
    } else {
      EndedStaysEnded(p, draws, more[..|more| - 1]);
      assert (draws + more)[..|draws + more| - 1] == draws + more[..|more| - 1];
    }
  }

  /**
   The attempt cap ends an episode after exactly that many waits, unless the total cap has
   ended it before, or the attempt cap is the largest integer, which no count passes.
   */
  lemma AttemptCapExactly(p: Policy, draws: seq<U64>)
    requires draws != [] && p.maxAttempts.Some?
    ensures Answer(p, draws).None? <==>
            || (p.maxAttempts.value < |draws| && p.maxAttempts.value < U32_MAX)
            || OutOfTime(p, Saturate(HandedOut(p, draws[..|draws| - 1]), DURATION_MAX))
  {
    EpisodeKeeps(p, draws[..|draws| - 1]);
  }

  /** Half a millisecond. */
  const LEAST: nat := 500_000

  /** Every wait but a trimmed last one is at least half a millisecond. */
  lemma LeastWait(p: Policy, e: Episode, draw: U64)
    requires MILLI <= p.initial && MILLI <= p.maximum && Next(p, e, draw).0.Some?
    ensures LEAST <= Next(p, e, draw).0.value
            || (p.maxTotal.Some? && Next(p, e, draw).0.value == p.maxTotal.value - e.waited)
  {
    var attempt := Saturate(e.attempt + 1, U32_MAX);
    WaitAtLeastAMilli(p, attempt);
    JitteredAtLeast(Wait(p, attempt), draw);
  }

  lemma JitteredAtLeast(wait: nat, draw: U64)
    requires MILLI <= wait
    ensures LEAST <= Jittered(wait, draw)
  {}

  ghost predicate Reasonable(p: Policy) {
    MILLI <= p.initial && MILLI <= p.maximum && p.maxTotal.Some? && p.maxTotal.value <= DURATION_MAX
  }

  /** While the total is not spent, each wait so far took its half millisecond of it. */
  lemma {:induction false} WaitsUseTheTotal(p: Policy, draws: seq<U64>)
    requires Reasonable(p) && (draws == [] || Answer(p, draws).Some?)
    ensures After(p, draws).waited >= Min(|draws| * LEAST, p.maxTotal.value)
    decreases |draws|
  {
    if draws != [] {
      var init, last := draws[..|draws| - 1], draws[|draws| - 1];
      WaitsUseTheTotal(p, init);
      EpisodeKeeps(p, init);
      LeastWait(p, After(p, init), last);
    }
  }

  /** An episode with a total cap hands out at most one wait per half millisecond of it, rounded up. */
  lemma WaitsAreBounded(p: Policy, draws: seq<U64>)
    requires Reasonable(p) && draws != [] && Answer(p, draws).Some?
    ensures |draws| <= (p.maxTotal.value + LEAST - 1) / LEAST
  {
    var init := draws[..|draws| - 1];
    WaitsUseTheTotal(p, init);
    EpisodeKeeps(p, init);
    assert After(p, init).waited < p.maxTotal.value;
    assert |init| * LEAST < p.maxTotal.value;
  }

  // ---- the driver ----

  /** `draws` records the draws since the last reset. */
  class Driver {
    const policy: Policy
    var attempt: U32
    var waited: nat
    ghost var draws: seq<U64>

    ghost predicate Valid()
      reads this
    {
      Episode(attempt, waited) == After(policy, draws)
    }

    constructor (p: Policy)
      ensures policy == p && Valid() && draws == []
    {
      policy := p;
      attempt, waited, draws := 0, 0, [];
    }

    method NextWait(draw: U64) returns (r: Option<nat>)
      requires Valid()
      modifies this
      ensures Valid() && draws == old(draws) + [draw] && r == Answer(policy, draws)
      ensures attempt == Saturate(|draws|, U32_MAX) && waited == Saturate(HandedOut(policy, draws), DURATION_MAX)
      ensures policy.maxTotal.Some? ==> waited <= policy.maxTotal.value
    {
      r := Advance(draw);
      draws := draws + [draw];
      assert draws[..|draws| - 1] == old(draws);
      EpisodeKeeps(policy, draws);
    }

    method Advance(draw: U64) returns (r: Option<nat>)
      modifies `attempt, `waited
      ensures (r, Episode(attempt, waited)) == Next(policy, Episode(old(attempt), old(waited)), draw)
    {
      attempt := if attempt < U32_MAX then attempt + 1 else U32_MAX;
      if policy.maxAttempts.Some? && attempt > policy.maxAttempts.value {
        return None;
      }
      var wait := Wait(policy, attempt);
      if policy.jitter {
        wait := Jittered(wait, draw);
      }
      if policy.maxTotal.Some? {
        var left := Monus(policy.maxTotal.value, waited);
        if left == 0 {
          return None;
        }
        wait := Min(wait, left);
      }
      waited := Saturate(waited + wait, DURATION_MAX);
      return Some(wait);
    }

    method Reset()
      modifies this
      ensures Valid() && draws == []
    {
      attempt, waited, draws := 0, 0, [];
    }
  }
}

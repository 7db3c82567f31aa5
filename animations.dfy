/**
 * The animation constants: the named durations and easing curves, the
 * reduced-motion preference, the duration that honours it, and the stagger
 * delay string.
 */
module Animations {
  import opened Text
  import opened Browser

  /** The keys of `ANIMATION_DURATIONS`, shortest first. */
  datatype AnimationDuration = Subtle | Micro | Transition | Entrance | Feedback | Loading

  /** `getAnimationDuration`: milliseconds. */
  function GetAnimationDuration(d: AnimationDuration): nat {
    match d
    case Subtle => 150
    case Micro => 200
    case Transition => 400
    case Entrance => 500
    case Feedback => 600
    case Loading => 1500
  }

  /** The declaration order of a duration key. */
  function DurationIndex(d: AnimationDuration): nat {
    match d
    case Subtle => 0
    case Micro => 1
    case Transition => 2
    case Entrance => 3
    case Feedback => 4
    case Loading => 5
  }

  /** Every named duration is positive, and a key declared later is strictly longer. */
  lemma DurationsIncreasing(a: AnimationDuration, b: AnimationDuration)
    ensures GetAnimationDuration(a) > 0
    ensures DurationIndex(a) < DurationIndex(b) <==> GetAnimationDuration(a) < GetAnimationDuration(b)
    ensures GetAnimationDuration(a) == GetAnimationDuration(b) ==> a == b
  {
  }

  /** The keys of `ANIMATION_EASINGS`. */
  datatype AnimationEasing = Out | Smooth | EntranceCurve | Pulse

  const SmoothCurve := "cubic-bezier(0.4, 0, 0.2, 1)"

  /** `getAnimationEasing`: the CSS timing function. */
  function GetAnimationEasing(e: AnimationEasing): string {
    match e
    case Out => "ease-out"
    case Smooth => SmoothCurve
    case EntranceCurve => "cubic-bezier(0.16, 1, 0.3, 1)"
    case Pulse => "cubic-bezier(0.4, 0, 0.6, 1)"
  }

  /** No two easing keys name the same curve. */
  lemma EasingsDistinct(a: AnimationEasing, b: AnimationEasing)
    ensures GetAnimationEasing(a) == GetAnimationEasing(b) ==> a == b
  {
  }

  /** `prefersReducedMotion`: the media query's answer, or `false` without a window. */
  function PrefersReducedMotion(env: Env): bool {
    match env
    case NoWindow => false
    case Window(_, reduced, _) => reduced
  }

  /** `getSafeAnimationDuration`. */
  function GetSafeAnimationDuration(env: Env, d: AnimationDuration): nat {
    if PrefersReducedMotion(env) then 0 else GetAnimationDuration(d)
  }

  /** The safe duration is zero exactly under reduced motion, and the table value otherwise; without a window it is the table value. */
  lemma SafeDurationProperties(env: Env, d: AnimationDuration)
    ensures GetSafeAnimationDuration(env, d) == 0 <==> PrefersReducedMotion(env)
    ensures !PrefersReducedMotion(env) ==> GetSafeAnimationDuration(env, d) == GetAnimationDuration(d)
    ensures env.NoWindow? ==> GetSafeAnimationDuration(env, d) == GetAnimationDuration(d)
    ensures GetSafeAnimationDuration(env, d) <= GetAnimationDuration(d)
  {
    DurationsIncreasing(d, d);
  }

  /** The entrance duration as a CSS time. */
  lemma EntranceMilliseconds()
    ensures Milliseconds(GetAnimationDuration(Entrance)) == "500ms"
  {
    assert NatToString(5) == "5";
    assert NatToString(50) == "50";
    assert NatToString(500) == "500";
  }

  /** A number of milliseconds as a CSS time, `${ms}ms`. */
  function Milliseconds(ms: int): string {
    IntToString(ms) + "ms"
  }

  /** The number a CSS time string `<digits>ms` stands for. */
  function ParseMilliseconds(s: string): int {
    if |s| >= 2 then ParseInt(s[..|s| - 2]) else 0
  }

  /** `Milliseconds` ends in the unit and can be read back. */
  lemma MillisecondsRoundTrip(ms: int)
    ensures var s := Milliseconds(ms);
      |s| >= 3 && s[|s| - 2..] == "ms" && ParseMilliseconds(s) == ms
  {
    var s := Milliseconds(ms);
    assert s[..|s| - 2] == IntToString(ms);
    IntToStringRoundTrip(ms);
  }

  lemma MillisecondsInjective(a: int, b: int)
    requires Milliseconds(a) == Milliseconds(b)
    ensures a == b
  {
    MillisecondsRoundTrip(a);
    MillisecondsRoundTrip(b);
  }

  /** `getStaggerDelay`: item `index` starts `index * baseDelay` milliseconds late. */
  function GetStaggerDelay(index: int, baseDelay: int := 100): string {
    Milliseconds(index * baseDelay)
  }

  /** The delay string carries exactly the product, 100 ms per item by default. */
  lemma StaggerDelayMeaning(index: int, baseDelay: int)
    ensures ParseMilliseconds(GetStaggerDelay(index, baseDelay)) == index * baseDelay
    ensures ParseMilliseconds(GetStaggerDelay(index)) == index * 100
    ensures GetStaggerDelay(0, baseDelay) == "0ms"
  {
    MillisecondsRoundTrip(index * baseDelay);
    MillisecondsRoundTrip(index * 100);
  }
}

/**
 * Inline-style builders. A style object is a map from CSS property name to a
 * value; a key whose value is `undefined` is still a key of the object, as it
 * is after `{ animationDelay: undefined }`.
 */
module AnimationStyles {
  import opened Wrappers
  import opened Text
  import opened Browser
  import opened Animations

  datatype CssValue = Str(s: string) | Num(n: int) | Undefined

  type Style = map<string, CssValue>

  // ----- combineStyles -----

  /** The style an argument contributes: nothing for `undefined`. */
  function Contribution(s: Option<Style>): Style {
    match s
    case None => map[]
    case Some(st) => st
  }

  /** `combineStyles`: `Object.assign({}, ...styles.filter(Boolean))`, a fresh object. */
  function CombineStyles(styles: seq<Option<Style>>): Style {
    if styles == [] then map[]
    else CombineStyles(styles[..|styles| - 1]) + Contribution(styles[|styles| - 1])
  }

  /** A key of the result is a key of some argument, and every argument's keys are in the result. */
  lemma {:induction false} CombineKeys(styles: seq<Option<Style>>, k: string)
    ensures k in CombineStyles(styles) <==> exists i :: 0 <= i < |styles| && k in Contribution(styles[i])
    decreases |styles|
  {
    if styles != [] {
      var init := styles[..|styles| - 1];
      CombineKeys(init, k);
      if k in CombineStyles(init) {
        var i :| 0 <= i < |init| && k in Contribution(init[i]);
        assert styles[i] == init[i];
      }
      if exists i :: 0 <= i < |styles| && k in Contribution(styles[i]) {
        var i :| 0 <= i < |styles| && k in Contribution(styles[i]);
        if i < |init| {
          assert init[i] == styles[i];
        }
      }
    }
  }

  /** For a shared key the value of the last argument that has it wins. */
  lemma {:induction false} CombineLaterWins(styles: seq<Option<Style>>, i: nat, k: string)
    requires i < |styles| && k in Contribution(styles[i])
    requires forall j :: i < j < |styles| ==> k !in Contribution(styles[j])
    ensures k in CombineStyles(styles) && CombineStyles(styles)[k] == Contribution(styles[i])[k]
    decreases |styles|
  {
    var init := styles[..|styles| - 1];
    if i < |styles| - 1 {
      assert init[i] == styles[i];
      CombineLaterWins(init, i, k);
    }
  }

  /** Leaving out an `undefined` argument changes nothing. */
  lemma {:induction false} CombineSkipsUndefined(a: seq<Option<Style>>, b: seq<Option<Style>>)
    ensures CombineStyles(a + [None] + b) == CombineStyles(a + b)
    decreases |b|
  {
    if b == [] {
      assert a + [None] + b == a + [None];
      assert (a + [None])[..|a|] == a;
      assert a + b == a;
    } else {
      var b' := b[..|b| - 1];
      assert (a + [None] + b)[..|a| + |b|] == a + [None] + b';
      assert (a + b)[..|a| + |b| - 1] == a + b';
      CombineSkipsUndefined(a, b');
    }
  }

  // ----- createStaggerStyle and createTransition -----

  /** `createStaggerStyle`. */
  function CreateStaggerStyle(index: int, baseDelay: int := 100): (r: Style)
    ensures r.Keys == {"animationDelay"}
  {
    map["animationDelay" := Str(GetStaggerDelay(index, baseDelay))]
  }

  /** The one key holds the delay of item `index`, read back as a number of milliseconds. */
  lemma StaggerStyleMeaning(index: int, baseDelay: int)
    ensures CreateStaggerStyle(index, baseDelay)["animationDelay"].Str?
    ensures ParseMilliseconds(CreateStaggerStyle(index, baseDelay)["animationDelay"].s) == index * baseDelay
    ensures CreateStaggerStyle(index) == CreateStaggerStyle(index, 100)
  {
    StaggerDelayMeaning(index, baseDelay);
  }

  /** The `property` argument of `createTransition`: one name or an array of names. */
  datatype PropertyArg = One(name: string) | Many(names: seq<string>)

  function PropertyList(p: PropertyArg): seq<string> {
    match p
    case One(name) => [name]
    case Many(names) => names
  }

  /** One entry of a transition list, `${prop} ${duration}ms ${easing}`. */
  function TransitionItem(prop: string, duration: int, easing: string): string {
    prop + " " + Milliseconds(duration) + " " + easing
  }

  /** `props.map(...)`. */
  function TransitionItems(props: seq<string>, duration: int, easing: string): (r: seq<string>)
    ensures |r| == |props|
    ensures forall i :: 0 <= i < |props| ==> r[i] == TransitionItem(props[i], duration, easing)
  {
    if props == [] then [] else [TransitionItem(props[0], duration, easing)] + TransitionItems(props[1..], duration, easing)
  }

  /** `createTransition`. */
  function CreateTransition(property: PropertyArg, duration: int, easing: string := SmoothCurve): (r: Style)
    ensures r.Keys == {"transition"}
  {
    map["transition" := Str(Join(TransitionItems(PropertyList(property), duration, easing), ", "))]
  }

  /** A single name is treated as a one-element array, and the default easing is the smooth curve. */
  lemma TransitionSingleIsList(name: string, duration: int)
    ensures CreateTransition(One(name), duration) == CreateTransition(Many([name]), duration, SmoothCurve)
    ensures CreateTransition(One(name), duration)["transition"] == Str(name + " " + Milliseconds(duration) + " " + SmoothCurve)
  {
  }

  /** Each further property adds `, ` and its own entry at the end, so the entries keep the input order. */
  lemma TransitionAppend(names: seq<string>, name: string, duration: int, easing: string)
    requires names != []
    ensures CreateTransition(Many(names + [name]), duration, easing)["transition"].s
         == CreateTransition(Many(names), duration, easing)["transition"].s + ", " + TransitionItem(name, duration, easing)
  {
    var items := TransitionItems(names, duration, easing);
    assert TransitionItems(names + [name], duration, easing) == items + [TransitionItem(name, duration, easing)];
    JoinAppend(items, TransitionItem(name, duration, easing), ", ");
  }

  // ----- transform states and getAnimationStyle -----

  datatype AnimState = Initial | Animate | Exit

  datatype Variant = SlideUp | SlideDown | SlideLeft | SlideRight | Scale | Fade

  /** `transformStates[state][variant]`. */
  function TransformState(state: AnimState, variant: Variant): Style {
    var opacity := if state == Animate then 1 else 0;
    match variant
    case Fade => map["opacity" := Num(opacity)]
    case _ =>
      var t := match (state, variant)
        case (Initial, SlideUp) => "translateY(20px)"
        case (Initial, SlideDown) => "translateY(-20px)"
        case (Initial, SlideLeft) => "translateX(20px)"
        case (Initial, SlideRight) => "translateX(-20px)"
        case (Animate, SlideUp) => "translateY(0)"
        case (Animate, SlideDown) => "translateY(0)"
        case (Animate, SlideLeft) => "translateX(0)"
        case (Animate, SlideRight) => "translateX(0)"
        case (Exit, SlideUp) => "translateY(-20px)"
        case (Exit, SlideDown) => "translateY(20px)"
        case (Exit, SlideLeft) => "translateX(-20px)"
        case (Exit, SlideRight) => "translateX(20px)"
        case (Animate, _) => "scale(1)"
        case _ => "scale(0.95)";
      map["transform" := Str(t), "opacity" := Num(opacity)]
  }

  /** Every state is fully shown only while animating; exit mirrors the entry of the opposite slide. */
  lemma TransformStateProperties(state: AnimState, variant: Variant)
    ensures "opacity" in TransformState(state, variant)
    ensures TransformState(state, variant)["opacity"] == Num(if state == Animate then 1 else 0)
    ensures "transform" in TransformState(state, variant) <==> variant != Fade
    ensures TransformState(Exit, SlideUp) == TransformState(Initial, SlideDown)
    ensures TransformState(Exit, SlideDown) == TransformState(Initial, SlideUp)
    ensures TransformState(Exit, SlideLeft) == TransformState(Initial, SlideRight)
    ensures TransformState(Exit, SlideRight) == TransformState(Initial, SlideLeft)
    ensures TransformState(Exit, Scale) == TransformState(Initial, Scale)
  {
  }

  /** `hardwareAccelerated`. */
  const HardwareAccelerated: Style := map["transform" := Str("translateZ(0)"), "backfaceVisibility" := Str("hidden")]

  /** The optional third argument of `getAnimationStyle`. */
  datatype StyleOptions = StyleOptions(duration: Option<int>, easing: Option<string>, delay: Option<int>)

  /** JavaScript truthiness of an optional number: present and not zero. */
  predicate Truthy(n: Option<int>) {
    n.Some? && n.value != 0
  }

  /** `options?.duration`, `options?.easing` and `options?.delay`. */
  function DurationOption(options: Option<StyleOptions>): Option<int> {
    if options.Some? then options.value.duration else None
  }

  function EasingOption(options: Option<StyleOptions>): Option<string> {
    if options.Some? then options.value.easing else None
  }

  function DelayOption(options: Option<StyleOptions>): Option<int> {
    if options.Some? then options.value.delay else None
  }

  /** `getAnimationStyle`: the state's style, the transition, a delay when one is truthy, then `hardwareAccelerated`. */
  function GetAnimationStyle(variant: Variant, state: AnimState := Initial, options: Option<StyleOptions> := None): Style {
    var duration := DurationOption(options).GetOr(GetAnimationDuration(Entrance));
    var easing := EasingOption(options).GetOr(SmoothCurve);
    var delay := DelayOption(options);
    TransformState(state, variant)
      + map["transition" := Str("all " + Milliseconds(duration) + " " + easing)]
      + (if Truthy(delay) then map["transitionDelay" := Str(Milliseconds(delay.value))] else map[])
      + HardwareAccelerated
  }

  /** What `getAnimationStyle` promises about its result. */
  lemma AnimationStyleProperties(variant: Variant, state: AnimState, options: Option<StyleOptions>)
    ensures var r := GetAnimationStyle(variant, state, options);
      && r["transform"] == Str("translateZ(0)")
      && r["backfaceVisibility"] == Str("hidden")
      && r["opacity"] == TransformState(state, variant)["opacity"]
      && ("transitionDelay" in r <==> options.Some? && Truthy(options.value.delay))
      && r.Keys == TransformState(state, variant).Keys + {"transition", "transform", "backfaceVisibility"}
           + (if options.Some? && Truthy(options.value.delay) then {"transitionDelay"} else {})
  {
    TransformStateKeys(state, variant);
    var delay := DelayOption(options);
    var delayPart: Style := if Truthy(delay) then map["transitionDelay" := Str(Milliseconds(delay.value))] else map[];
    var duration := DurationOption(options).GetOr(GetAnimationDuration(Entrance));
    var easing := EasingOption(options).GetOr(SmoothCurve);
    LayeredStyle(TransformState(state, variant), Str("all " + Milliseconds(duration) + " " + easing), delayPart);
  }

  /** Every state's style has an opacity and never a transition delay. */
  lemma TransformStateKeys(state: AnimState, variant: Variant)
    ensures TransformState(state, variant).Keys <= {"transform", "opacity"}
    ensures "opacity" in TransformState(state, variant)
  {
  }

  /** The layering of `getAnimationStyle`, whatever the state's style is. */
  lemma LayeredStyle(base: Style, transition: CssValue, delayPart: Style)
    requires "opacity" in base && "transitionDelay" !in base && delayPart.Keys <= {"transitionDelay"}
    ensures var r := base + map["transition" := transition] + delayPart + HardwareAccelerated;
      && r["transform"] == Str("translateZ(0)")
      && r["backfaceVisibility"] == Str("hidden")
      && r["opacity"] == base["opacity"]
      && ("transitionDelay" in r <==> "transitionDelay" in delayPart)
      && r.Keys == base.Keys + {"transition", "transform", "backfaceVisibility"} + delayPart.Keys
  {
  }

  /** Without options the transition is `all 500ms` on the smooth curve. */
  lemma AnimationStyleDefaults(variant: Variant, state: AnimState)
    ensures GetAnimationStyle(variant, state)["transition"] == Str("all 500ms " + SmoothCurve)
  {
    EntranceMilliseconds();
  }

  /** A zero delay counts as none, and so do absent duration and easing. */
  lemma AnimationStyleZeroDelay(variant: Variant, state: AnimState)
    ensures GetAnimationStyle(variant, state, Some(StyleOptions(None, None, Some(0))))
         == GetAnimationStyle(variant, state)
  {
  }

  /** A given duration, easing and non-zero delay replace the defaults. */
  lemma AnimationStyleOptions(variant: Variant, state: AnimState, duration: int, easing: string, delay: int)
    requires delay != 0
    ensures var r := GetAnimationStyle(variant, state, Some(StyleOptions(Some(duration), Some(easing), Some(delay))));
      && r["transition"] == Str("all " + Milliseconds(duration) + " " + easing)
      && r["transitionDelay"] == Str(Milliseconds(delay))
  {
  }

  /** `responsiveAnimation`: nothing on a narrow window when asked, the styles untouched otherwise. */
  function ResponsiveAnimation(env: Env, styles: Style, disableOnMobile: bool := false): Style {
    if disableOnMobile && env.Window? && env.innerWidth < 768 then map[] else styles
  }

  lemma ResponsiveAnimationCases(env: Env, styles: Style, disableOnMobile: bool)
    ensures disableOnMobile && env.Window? && env.innerWidth < 768 ==> ResponsiveAnimation(env, styles, disableOnMobile) == map[]
    ensures !(disableOnMobile && env.Window? && env.innerWidth < 768) ==> ResponsiveAnimation(env, styles, disableOnMobile) == styles
    ensures ResponsiveAnimation(env, styles) == styles
    ensures ResponsiveAnimation(NoWindow, styles, disableOnMobile) == styles
  {
  }

  // ----- createKeyframeAnimation -----

  datatype IterationCount = Times(n: int) | Infinite

  datatype KeyframeOptions = KeyframeOptions(delay: Option<int>, iterationCount: Option<IterationCount>, fillMode: Option<string>)

  function IterationValue(c: Option<IterationCount>): CssValue {
    match c
    case None => Undefined
    case Some(Times(n)) => Num(n)
    case Some(Infinite) => Str("infinite")
  }

  function OptionalStr(s: Option<string>): CssValue {
    match s
    case None => Undefined
    case Some(v) => Str(v)
  }

  /** `createKeyframeAnimation`. */
  function CreateKeyframeAnimation(name: string, duration: int := 500, easing: string := SmoothCurve,
                                   options: Option<KeyframeOptions> := None): Style {
    var delay := if options.Some? then options.value.delay else None;
    map[
      "animation" := Str(name + " " + Milliseconds(duration) + " " + easing),
      "animationDelay" := if Truthy(delay) then Str(Milliseconds(delay.value)) else Undefined,
      "animationIterationCount" := IterationValue(if options.Some? then options.value.iterationCount else None),
      "animationFillMode" := OptionalStr(if options.Some? then options.value.fillMode else None)
    ] + HardwareAccelerated
  }

  /** The six keys are always there; the delay is `undefined` unless it is truthy, and then it is that many milliseconds. */
  lemma KeyframeAnimationProperties(name: string, duration: int, easing: string, options: Option<KeyframeOptions>)
    ensures var r := CreateKeyframeAnimation(name, duration, easing, options);
      && r.Keys == {"animation", "animationDelay", "animationIterationCount", "animationFillMode", "transform", "backfaceVisibility"}
      && r["transform"] == Str("translateZ(0)")
      && (r["animationDelay"] == Undefined <==> options.None? || !Truthy(options.value.delay))
      && (options.Some? && Truthy(options.value.delay) ==>
            r["animationDelay"].Str? && ParseMilliseconds(r["animationDelay"].s) == options.value.delay.value)
      && (options.None? ==> r["animationIterationCount"] == Undefined && r["animationFillMode"] == Undefined)
  {
    if options.Some? && Truthy(options.value.delay) {
      MillisecondsRoundTrip(options.value.delay.value);
    }
  }
}

/** libraries/lenis.js: the Lenis wrapper. init builds one Lenis instance
    and keeps it in the module variable; scrollTo hands the position to that
    instance when it can scroll and to the window otherwise. */
module LenisWrapper {
  import opened Wrappers
  import opened JsValues
  import opened Scroll

  /** The options object passed to new Lenis(…). */
  datatype LenisOptions = LenisOptions(smoothWheel: bool, smoothTouch: bool, lerp: real)

  /** A Lenis instance: the options it was built with and whether it has a
      scrollTo method. */
  datatype Instance = Instance(options: LenisOptions, scrollable: bool)

  /** The interpolation factor for a speed setting: 1/(10·speed) clamped to
      [0.01, 0.99] when the speed is a positive number, 0.1 otherwise. */
  function Lerp(speed: Js): (lerp: real)
    ensures 0.01 <= lerp <= 0.99
    ensures !(speed.Num? && speed.n.Finite? && speed.n.x > 0.0) ==> lerp == 0.1
    ensures speed.Num? && speed.n.Finite? && speed.n.x > 0.0 ==>
      var raw := 1.0 / (speed.n.x * 10.0);
      && (0.01 <= raw <= 0.99 ==> lerp == raw)
      && (raw < 0.01 ==> lerp == 0.01)
      && (raw > 0.99 ==> lerp == 0.99)
  {
    if speed.Num? && speed.n.Finite? && speed.n.x > 0.0 then
      Min(0.99, Max(0.01, 1.0 / (speed.n.x * 10.0)))
    else 0.1
  }

  /** A higher speed never gives a larger interpolation factor. */
  lemma LerpAntitone(a: real, b: real)
    requires 0.0 < a <= b
    ensures Lerp(Num(Finite(b))) <= Lerp(Num(Finite(a)))
  {
    ReciprocalAntitone(a * 10.0, b * 10.0);
  }

  lemma ReciprocalAntitone(p: real, q: real)
    requires 0.0 < p <= q
    ensures 1.0 / q <= 1.0 / p
  {
    assert 1.0 / q * q == 1.0 && 1.0 / p * p == 1.0;
    assert (1.0 / q) * p <= (1.0 / q) * q;
  }

  /** The wrapper's module state. */
  class Wrapper {
    /** The module variable lenis; None is null. */
    var lenis: Option<Instance>

    constructor ()
      ensures lenis == None
    {
      lenis := None;
    }

    /** OSS.init. Nothing happens when window.Lenis is not a function. Reading
        a property of a null or undefined settings value throws inside the
        try, which like a failing constructor leaves lenis null. The
        requestAnimationFrame loop that drives the instance is not modelled. */
    method Init(settings: Js, lenisIsFunction: bool, construction: Construction)
      modifies this
      ensures !lenisIsFunction ==> lenis == old(lenis)
      ensures lenisIsFunction && (settings.Undefined? || settings.Null? || construction.ConstructorThrew?) ==>
        lenis == None
      ensures lenisIsFunction && !settings.Undefined? && !settings.Null? && construction.Constructed? ==>
        lenis == Some(Instance(
          LenisOptions(true, Truthy(Prop(settings, "enableMobile")), Lerp(Prop(settings, "speed"))),
          construction.scrollable))
    {
      if !lenisIsFunction {
        return;
      }
      if settings.Undefined? || settings.Null? || construction.ConstructorThrew? {
        lenis := None;
        return;
      }
      var options := LenisOptions(true, Truthy(Prop(settings, "enableMobile")), Lerp(Prop(settings, "speed")));
      lenis := Some(Instance(options, construction.scrollable));
    }

    /** OSS.scrollTo: the instance gets the unclamped y - offset; without an
        instance that can scroll, the window gets the clamped top. */
    method ScrollTo(targetOrY: Js, options: Js, pageYOffset: real) returns (cmd: Command)
      ensures lenis.Some? && lenis.value.scrollable ==>
        cmd == LenisScroll(Sub(TargetY(targetOrY, pageYOffset), OffsetOption(options)))
      ensures !(lenis.Some? && lenis.value.scrollable) ==>
        cmd == WindowScroll(ClampedTop(targetOrY, options, pageYOffset))
      ensures cmd.WindowScroll? ==> cmd.top == NaN || cmd.top.x >= 0.0
    {
      var offset := OffsetOption(options);
      var y := TargetY(targetOrY, pageYOffset);
      if lenis.Some? && lenis.value.scrollable {
        return LenisScroll(Sub(y, offset));
      }
      cmd := WindowScroll(MaxZero(Sub(y, offset)));
    }
  }
}

/** libraries/locomotive.js: the Locomotive Scroll wrapper. init builds one
    instance and keeps it in the module variable; scrollTo hands the
    position to it when it can scroll and to the window otherwise. */
module LocomotiveWrapper {
  import opened Wrappers
  import opened JsValues
  import opened Scroll

  /** The options object passed to new LocomotiveScroll(…). */
  datatype LocomotiveOptions = LocomotiveOptions(smooth: bool, multiplier: real, easing: Js)

  datatype Instance = Instance(options: LocomotiveOptions, scrollable: bool)

  /** Number(settings.speed) || 1: a missing, zero or non-numeric speed
      gives 1, so the multiplier is never 0. */
  function Multiplier(speed: Js): (m: real)
    ensures m != 0.0
    ensures ToNumber(speed).Finite? && ToNumber(speed).x != 0.0 ==> m == ToNumber(speed).x
    ensures speed.Undefined? || ToNumber(speed) == NaN || ToNumber(speed) == Finite(0.0) ==> m == 1.0
  {
    NumberOr(speed, 1.0)
  }

  /** settings.easing || 'ease' */
  function Easing(easing: Js): (e: Js)
    ensures Truthy(e)
    ensures Truthy(easing) ==> e == easing
    ensures !Truthy(easing) ==> e == Str("ease")
  {
    Or(easing, Str("ease"))
  }

  /** The duration, in milliseconds, of a scroll through the instance. */
  const ScrollDuration := 1000

  class Wrapper {
    /** The module variable instance; None is null. */
    var instance: Option<Instance>

    constructor ()
      ensures instance == None
    {
      instance := None;
    }

    /** OSS.init. Nothing happens when window.LocomotiveScroll is not a
        function; smooth is always on. A null or undefined settings value
        throws inside the try, which like a failing constructor leaves the
        instance null. */
    method Init(settings: Js, locomotiveIsFunction: bool, construction: Construction)
      modifies this
      ensures !locomotiveIsFunction ==> instance == old(instance)
      ensures locomotiveIsFunction && (settings.Undefined? || settings.Null? || construction.ConstructorThrew?) ==>
        instance == None
      ensures locomotiveIsFunction && !settings.Undefined? && !settings.Null? && construction.Constructed? ==>
        instance == Some(Instance(
          LocomotiveOptions(true, Multiplier(Prop(settings, "speed")), Easing(Prop(settings, "easing"))),
          construction.scrollable))
    {
      if !locomotiveIsFunction {
        return;
      }
      if settings.Undefined? || settings.Null? || construction.ConstructorThrew? {
        instance := None;
        return;
      }
      var options := LocomotiveOptions(true, Multiplier(Prop(settings, "speed")), Easing(Prop(settings, "easing")));
      instance := Some(Instance(options, construction.scrollable));
    }

    /** OSS.scrollTo: the instance gets the unclamped y - offset with a
        1000 ms duration; otherwise the window gets the clamped top. */
    method ScrollTo(targetOrY: Js, options: Js, pageYOffset: real) returns (cmd: Command)
      ensures instance.Some? && instance.value.scrollable ==>
        cmd == LocomotiveScroll(Sub(TargetY(targetOrY, pageYOffset), OffsetOption(options)), ScrollDuration)
      ensures !(instance.Some? && instance.value.scrollable) ==>
        cmd == WindowScroll(ClampedTop(targetOrY, options, pageYOffset))
      ensures cmd.WindowScroll? ==> cmd.top == NaN || cmd.top.x >= 0.0
    {
      var offset := OffsetOption(options);
      var y := TargetY(targetOrY, pageYOffset);
      if instance.Some? && instance.value.scrollable {
        return LocomotiveScroll(Sub(y, offset), ScrollDuration);
      }
      cmd := WindowScroll(MaxZero(Sub(y, offset)));
    }
  }
}

/** libraries/scrollbar.js: the Smooth Scrollbar wrapper. init attaches one
    scrollbar to a container and keeps it in the module variable; scrollTo
    hands the clamped position to it when it can scroll and to the window
    otherwise. */
module ScrollbarWrapper {
  import opened Wrappers
  import opened JsValues
  import opened Scroll

  /** The element the scrollbar is attached to: the first element marked
      data-scrollbar, or the body. */
  datatype Container = FirstMarked | Body

  datatype Instance = Instance(container: Container, damping: real, scrollable: bool)

  /** 1/(10·s) clamped to [0.01, 1], where s is Number(speed) || 1. */
  function Damping(speed: Js): (d: real)
    ensures 0.01 <= d <= 1.0
    ensures speed.Undefined? || ToNumber(speed) == NaN || ToNumber(speed) == Finite(0.0) ==> d == 0.1
    ensures var n := ToNumber(speed);
      n.Finite? && n.x > 0.0 && 0.01 <= 1.0 / (n.x * 10.0) <= 1.0 ==> d == 1.0 / (n.x * 10.0)
    ensures var n := ToNumber(speed); n.Finite? && n.x < 0.0 ==> d == 0.01
    ensures var n := ToNumber(speed); n.Finite? && 0.0 < n.x <= 0.1 ==> d == 1.0
    ensures var n := ToNumber(speed); n.Finite? && n.x >= 10.0 ==> d == 0.01
  {
    var s := NumberOr(speed, 1.0);
    var raw := 1.0 / (s * 10.0);
    assert s < 0.0 ==> raw < 0.0 by {
      if s < 0.0 {
        assert raw * (s * 10.0) == 1.0;
      }
    }
    assert 0.0 < s <= 0.1 ==> raw >= 1.0 by {
      if 0.0 < s <= 0.1 {
        assert raw * (s * 10.0) == 1.0;
      }
    }
    assert s >= 10.0 ==> raw <= 0.01 by {
      if s >= 10.0 {
        assert raw * (s * 10.0) == 1.0;
      }
    }
    Max(0.01, Min(1.0, raw))
  }

  /** The duration, in milliseconds, of a scroll through the scrollbar. */
  const ScrollDuration := 600

  class Wrapper {
    /** The module variable scrollbar; None is null. */
    var scrollbar: Option<Instance>

    constructor ()
      ensures scrollbar == None
    {
      scrollbar := None;
    }

    /** OSS.init. Nothing happens unless window.Scrollbar.init is a function.
        A null or undefined settings value throws inside the try, which like
        a failing Scrollbar.init leaves the scrollbar null. */
    method Init(settings: Js, scrollbarInitIsFunction: bool, hasMarkedElement: bool, construction: Construction)
      modifies this
      ensures !scrollbarInitIsFunction ==> scrollbar == old(scrollbar)
      ensures scrollbarInitIsFunction && (settings.Undefined? || settings.Null? || construction.ConstructorThrew?) ==>
        scrollbar == None
      ensures scrollbarInitIsFunction && !settings.Undefined? && !settings.Null? && construction.Constructed? ==>
        scrollbar == Some(Instance(if hasMarkedElement then FirstMarked else Body,
          Damping(Prop(settings, "speed")), construction.scrollable))
    {
      if !scrollbarInitIsFunction {
        return;
      }
      var container := if hasMarkedElement then FirstMarked else Body;
      if settings.Undefined? || settings.Null? || construction.ConstructorThrew? {
        scrollbar := None;
        return;
      }
      scrollbar := Some(Instance(container, Damping(Prop(settings, "speed")), construction.scrollable));
    }

    /** OSS.scrollTo: the scrollbar and the window both get the clamped top,
        so no commanded position is negative. */
    method ScrollTo(targetOrY: Js, options: Js, pageYOffset: real) returns (cmd: Command)
      ensures scrollbar.Some? && scrollbar.value.scrollable ==>
        cmd == ScrollbarScroll(0, ClampedTop(targetOrY, options, pageYOffset), ScrollDuration)
      ensures !(scrollbar.Some? && scrollbar.value.scrollable) ==>
        cmd == WindowScroll(ClampedTop(targetOrY, options, pageYOffset))
      ensures cmd.WindowScroll? ==> cmd.top == NaN || cmd.top.x >= 0.0
      ensures cmd.ScrollbarScroll? ==> cmd.y == NaN || cmd.y.x >= 0.0
    {
      var offset := OffsetOption(options);
      var y := TargetY(targetOrY, pageYOffset);
      if scrollbar.Some? && scrollbar.value.scrollable {
        return ScrollbarScroll(0, MaxZero(Sub(y, offset)), ScrollDuration);
      }
      cmd := WindowScroll(MaxZero(Sub(y, offset)));
    }
  }
}

/** What every scroll implementation of the plugin shares: reading the
    offset option, turning a target into a page position, clamping the
    commanded top at zero, and the scroll commands handed to the browser or
    to a library. */
module Scroll {
  import opened JsValues

  /** options && typeof options.offset === 'number' ? options.offset : 0 */
  function OffsetOption(options: Js): Number
  {
    var offset := Prop(options, "offset");
    if Truthy(options) && offset.Num? then offset.n else Finite(0.0)
  }

  /** The page position of a scroll target: a number is used as it is; an
      element gives its rectangle's top plus the page's vertical offset;
      anything else gives 0 (getOffsetTop). */
  function TargetY(targetOrY: Js, pageYOffset: real): Number
  {
    match targetOrY
    case Num(n) => n
    case Element(top) => Finite(top + pageYOffset)
    case _ => Finite(0.0)
  }

  /** Math.max(0, y - offset) */
  function ClampedTop(targetOrY: Js, options: Js, pageYOffset: real): (top: Number)
    ensures top == NaN || top.x >= 0.0
    ensures var y := TargetY(targetOrY, pageYOffset); var offset := OffsetOption(options);
      y.Finite? && offset.Finite? ==> top == Finite(Max(0.0, y.x - offset.x))
  {
    MaxZero(Sub(TargetY(targetOrY, pageYOffset), OffsetOption(options)))
  }

  /** A target that is neither a number nor an element scrolls to the top of
      the offset; an options value without a numeric offset counts as offset 0. */
  lemma TargetAndOffsetDefaults(targetOrY: Js, options: Js, pageYOffset: real)
    ensures !targetOrY.Num? && !targetOrY.Element? ==> TargetY(targetOrY, pageYOffset) == Finite(0.0)
    ensures !Prop(options, "offset").Num? ==> OffsetOption(options) == Finite(0.0)
    ensures !Prop(options, "offset").Num? && (targetOrY.Element? || (targetOrY.Num? && targetOrY.n.Finite?)) ==>
      ClampedTop(targetOrY, options, pageYOffset).Finite?
  {
  }

  /** A scroll command issued to the browser or to a library. */
  datatype Command =
      /** window.scrollTo({ top, behavior: 'smooth' }) */
    | WindowScroll(top: Number)
      /** lenis.scrollTo(y) */
    | LenisScroll(y: Number)
      /** instance.scrollTo(y, { duration }) of Locomotive Scroll */
    | LocomotiveScroll(y: Number, duration: int)
      /** scrollbar.scrollTo(x, y, duration) of Smooth Scrollbar */
    | ScrollbarScroll(x: int, y: Number, duration: int)
      /** gsap.to(window, { duration, ease, scrollTo: { y, autoKill }, overwrite }) */
    | GsapScroll(y: Number, seconds: Number, ease: Js, autoKill: bool, overwrite: bool)

  /** The outcome of a library constructor or init call: an instance, with or
      without a scrollTo method, or an exception. */
  datatype Construction = Constructed(scrollable: bool) | ConstructorThrew

  /** The scrollTo of the built-in fallback and of the native wrapper: one
      smooth window scroll to the clamped top. */
  function NativeScroll(targetOrY: Js, options: Js, pageYOffset: real): (cmd: Command)
    ensures cmd.WindowScroll? && (cmd.top == NaN || cmd.top.x >= 0.0)
    ensures cmd.top == ClampedTop(targetOrY, options, pageYOffset)
  {
    WindowScroll(ClampedTop(targetOrY, options, pageYOffset))
  }

  /** The class list of the document's root element. */
  class DocumentRoot {
    var classes: set<string>

    constructor (classes: set<string>)
      ensures this.classes == classes
    {
      this.classes := classes;
    }

    /** classList.add(name) */
    method AddClass(name: string)
      modifies this
      ensures classes == old(classes) + {name}
    {
      classes := classes + {name};
    }
  }

  /** The class that switches on CSS smooth scrolling. */
  const NativeSmoothClass := "oss-native-smooth"
}

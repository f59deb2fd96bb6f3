/** libraries/native.js: the wrapper for the browser's own smooth scrolling.
    It keeps no state: init switches on the CSS class and scrollTo is
    Scroll.NativeScroll. */
module NativeWrapper {
  import opened JsValues
  import opened Scroll

  /** OSS.init: adds the smooth-scrolling class to the root element whatever
      the settings. */
  method Init(root: DocumentRoot, settings: Js)
    modifies root
    ensures root.classes == old(root.classes) + {NativeSmoothClass}
  {
    root.AddClass(NativeSmoothClass);
  }

  /** OSS.scrollTo, for any target: a window scroll whose top is y - offset
      when that is not negative and 0 when it is. */
  lemma ScrollToClamps(targetOrY: Js, options: Js, pageYOffset: real)
    ensures var cmd := NativeScroll(targetOrY, options, pageYOffset);
      var y := TargetY(targetOrY, pageYOffset); var offset := OffsetOption(options);
      && cmd.WindowScroll?
      && (y.Finite? && offset.Finite? && y.x - offset.x >= 0.0 ==> cmd.top == Finite(y.x - offset.x))
      && (y.Finite? && offset.Finite? && y.x - offset.x < 0.0 ==> cmd.top == Finite(0.0))
      && (y == NaN || offset == NaN ==> cmd.top == NaN)
  {
  }
}

/** The bridge between the two halves of the plugin: wp_localize_script
    hands the PHP payload of enqueue_assets to the page as window.ossSettings,
    JSON-encoded. The lemmas here follow the payload into the JavaScript that
    reads it: the orchestrator and the wrappers read top-level keys the
    payload does not have, so they run on their defaults whatever is saved. */
module Localize {
  import opened JsValues
  import P = PhpValues
  import Plugin
  import Frontend
  import Orchestrator
  import LenisWrapper
  import LocomotiveWrapper
  import ScrollbarWrapper
  import GsapWrapper
  import Scroll

  /** json_encode of a PHP value with string keys: an empty array is the
      JSON array [], any other array an object with the same keys in the
      same order. */
  function ToJs(v: P.Value): (r: Js)
    ensures v.Arr? && v.entries == [] ==> r == Array([])
    ensures v.Arr? && v.entries != [] ==>
      && r.Object? && |r.props| == |v.entries|
      && forall i :: 0 <= i < |v.entries| ==> r.props[i] == (v.entries[i].0, ToJs(v.entries[i].1))
    ensures v.Int? ==> r == Num(Finite(v.i as real))
    ensures v.Bool? ==> r == Bool(v.b)
    ensures v.Str? ==> r == Str(v.s)
    ensures v.Float? ==> r == Num(Finite(v.f))
    ensures v.Null? ==> r == Null
  {
    match v
    case Null => Null
    case Bool(b) => Bool(b)
    case Int(i) => Num(Finite(i as real))
    case Float(f) => Num(Finite(f))
    case Str(s) => Str(s)
    case Arr(es) =>
      if es == [] then Array([])
      else Object(seq(|es|, i requires 0 <= i < |es| => (es[i].0, ToJs(es[i].1))))
  }

  /** Every encoded array is truthy in JavaScript, the empty one included. */
  lemma EncodedArrayTruthy(es: P.Entries)
    ensures Truthy(ToJs(P.Arr(es)))
  {
  }

  /** A property of an encoded array is the encoding of the PHP element
      under that key, and undefined when the array has no such key. */
  lemma {:induction false} PropOfArray(es: P.Entries, k: string)
    ensures Prop(ToJs(P.Arr(es)), k) == if k in P.KeySet(es) then ToJs(P.Get(es, k)) else Undefined
  {
    if k in P.KeySet(es) {
      var i := P.IndexOf(es, k);
      P.GetIndexOf(es, k);
      var props := ToJs(P.Arr(es)).props;
      LookupFirst(props, i);
    }
  }

  lemma {:induction false} LookupFirst(props: seq<(string, Js)>, i: nat)
    requires i < |props| && forall j :: 0 <= j < i ==> props[j].0 != props[i].0
    ensures Lookup(props, props[i].0) == props[i].1
  {
    if i > 0 {
      LookupFirst(props[1..], i - 1);
    }
  }

  lemma NotAKey(es: P.Entries, k: string)
    requires k !in P.Keys(es)
    ensures k !in P.KeySet(es)
  {
  }

  /** window.ossSettings for a payload. */
  function SettingsOf(options: P.Entries, library: string, isMobile: bool, pluginUrl: string, version: string): Js
  {
    ToJs(P.Arr(Frontend.Payload(options, library, isMobile, pluginUrl, version)))
  }

  /** The settings carry the gsap block and the general block, and have no
      top-level anchorOffset, speed, enableMobile or easing. */
  lemma SettingsLayout(options: P.Entries, library: string, isMobile: bool, pluginUrl: string, version: string)
    ensures var settings := SettingsOf(options, library, isMobile, pluginUrl, version);
      && Prop(settings, "gsap") == ToJs(Frontend.BlockOrEmpty(P.Get(options, "gsap")))
      && Prop(settings, "general") == ToJs(P.Arr(Frontend.GeneralSettings(options, isMobile)))
      && Prop(settings, "anchorOffset") == Undefined && Prop(settings, "speed") == Undefined
      && Prop(settings, "enableMobile") == Undefined && Prop(settings, "easing") == Undefined
  {
    var p := Frontend.Payload(options, library, isMobile, pluginUrl, version);
    Frontend.PayloadLayout(options, library, isMobile, pluginUrl, version);
    EncodedPayload(p);
  }

  /** Reading the encoding of an array laid out with the payload's keys. */
  lemma EncodedPayload(p: P.Entries)
    requires P.Keys(p) == ["activeLibrary", "general", "locomotive", "lenis", "gsap", "pluginUrl", "pluginVersion"]
    ensures var settings := ToJs(P.Arr(p));
      && Prop(settings, "gsap") == ToJs(P.Get(p, "gsap"))
      && Prop(settings, "general") == ToJs(P.Get(p, "general"))
      && Prop(settings, "anchorOffset") == Undefined && Prop(settings, "speed") == Undefined
      && Prop(settings, "enableMobile") == Undefined && Prop(settings, "easing") == Undefined
  {
    assert P.Keys(p)[4] == "gsap" && P.Keys(p)[1] == "general";
    PropOfArray(p, "gsap");
    PropOfArray(p, "general");
    Missing(p, "anchorOffset");
    Missing(p, "speed");
    Missing(p, "enableMobile");
    Missing(p, "easing");
  }

  lemma Missing(p: P.Entries, k: string)
    requires P.Keys(p) == ["activeLibrary", "general", "locomotive", "lenis", "gsap", "pluginUrl", "pluginVersion"]
    requires k in ["anchorOffset", "speed", "enableMobile", "easing"]
    ensures Prop(ToJs(P.Arr(p)), k) == Undefined
  {
    NotAKey(p, k);
    PropOfArray(p, k);
  }

  /** The offset the orchestrator uses for every anchor scroll is 0: it
      reads settings.anchorOffset, while the payload keeps the saved offset
      under general.anchorOffset. */
  lemma AnchorOffsetNeverReachesScroll(options: P.Entries, library: string, isMobile: bool, pluginUrl: string, version: string)
    ensures var settings := SettingsOf(options, library, isMobile, pluginUrl, version);
      && Orchestrator.AnchorOffset(settings) == 0.0
      && Prop(Prop(settings, "general"), "anchorOffset") == Num(Finite(P.IntCast(P.Get(options, Plugin.OffsetKey)) as real))
  {
    SettingsLayout(options, library, isMobile, pluginUrl, version);
    var g := Frontend.GeneralSettings(options, isMobile);
    Frontend.GeneralLayout(options, isMobile);
    assert "anchorOffset" in P.KeySet(g) by {
      assert g[0].0 == "anchorOffset";
    }
    PropOfArray(g, "anchorOffset");
  }

  /** The wrappers, handed the whole settings object, never see the saved
      speed or easing: Lenis runs with lerp 0.1 and touch smoothing off,
      Locomotive with multiplier 1 and easing "ease", Smooth Scrollbar with
      damping 0.1. */
  lemma WrappersRunOnDefaults(options: P.Entries, library: string, isMobile: bool, pluginUrl: string, version: string)
    ensures var settings := SettingsOf(options, library, isMobile, pluginUrl, version);
      && LenisWrapper.Lerp(Prop(settings, "speed")) == 0.1
      && !Truthy(Prop(settings, "enableMobile"))
      && LocomotiveWrapper.Multiplier(Prop(settings, "speed")) == 1.0
      && LocomotiveWrapper.Easing(Prop(settings, "easing")) == Str("ease")
      && ScrollbarWrapper.Damping(Prop(settings, "speed")) == 0.1
  {
    SettingsLayout(options, library, isMobile, pluginUrl, version);
  }

  /** The orchestrator always passes a numeric offset, so every wrapper,
      GSAP included, scrolls with the orchestrator's anchor offset and
      never with the gsap block's own offset. */
  lemma OrchestratedOffset(settings: Js, cfg: Js)
    ensures var offset := Finite(Orchestrator.AnchorOffset(settings));
      && Scroll.OffsetOption(Orchestrator.ClickOptions(settings)) == offset
      && Scroll.OffsetOption(Orchestrator.HashOptions(settings)) == offset
      && GsapWrapper.GsapOffset(Orchestrator.ClickOptions(settings), cfg) == offset
      && GsapWrapper.GsapOffset(Orchestrator.HashOptions(settings), cfg) == offset
  {
  }

  /** The GSAP wrapper is the one that reads its own block: its config is
      the encoded gsap option array, or [] when that option is not an array. */
  lemma GsapReadsItsBlock(options: P.Entries, library: string, isMobile: bool, pluginUrl: string, version: string)
    ensures var settings := SettingsOf(options, library, isMobile, pluginUrl, version);
      GsapWrapper.Config(settings) == ToJs(Frontend.BlockOrEmpty(P.Get(options, "gsap")))
  {
    var p := Frontend.Payload(options, library, isMobile, pluginUrl, version);
    SettingsLayout(options, library, isMobile, pluginUrl, version);
    EncodedArrayTruthy(p);
    EncodedArrayTruthy(Frontend.BlockOrEmpty(P.Get(options, "gsap")).entries);
  }
}

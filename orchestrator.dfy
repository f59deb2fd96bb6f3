/** assets/js/oss-init.js: the front-end orchestrator. It picks the API (the
    active wrapper or the built-in DefaultAPI), initialises it, binds the
    in-page anchor links, scrolls to the initial hash and announces that it
    is done. The click handler is a function of the link's href and the
    document; startup is a method on the page, whose observable effects are
    kept in order. */
module Orchestrator {
  import opened Wrappers
  import opened JsValues
  import opened Scroll

  /** window.ossSettings || {} */
  function Settings(ossSettings: Js): (settings: Js)
    ensures Truthy(ossSettings) ==> settings == ossSettings
    ensures !Truthy(ossSettings) ==> settings == Object([])
  {
    Or(ossSettings, Object([]))
  }

  /** The two APIs the orchestrator can talk to. */
  datatype Api = Wrapper | Default

  /** window.OSS_SmoothScroll || DefaultAPI: chosen once, never replaced. */
  function SelectApi(wrapper: Js): (api: Api)
    ensures api == Wrapper <==> Truthy(wrapper)
  {
    if Truthy(wrapper) then Wrapper else Default
  }

  /** Number(settings.anchorOffset) || 0 */
  function AnchorOffset(settings: Js): (offset: real)
    ensures offset == 0.0 || ToNumber(Prop(settings, "anchorOffset")) == Finite(offset)
    ensures Prop(settings, "anchorOffset").Undefined? || Prop(settings, "anchorOffset").Object? ==> offset == 0.0
    ensures var n := ToNumber(Prop(settings, "anchorOffset"));
      n.Finite? && n.x != 0.0 ==> offset == n.x
  {
    NumberOr(Prop(settings, "anchorOffset"), 0.0)
  }

  /** The options of a click's scroll: { offset, easing: settings.easing }. */
  function ClickOptions(settings: Js): Js
  {
    Object([("offset", Num(Finite(AnchorOffset(settings)))), ("easing", Prop(settings, "easing"))])
  }

  /** The options of the initial hash scroll: { offset } only. */
  function HashOptions(settings: Js): Js
  {
    Object([("offset", Num(Finite(AnchorOffset(settings))))])
  }

  /** A call of API.scrollTo or DefaultAPI.scrollTo. */
  datatype ScrollCall = ScrollCall(api: Api, target: Js, options: Js)

  /** DefaultAPI.scrollTo: one smooth window scroll to the clamped top. */
  function DefaultScrollTo(targetOrY: Js, options: Js, pageYOffset: real): (cmd: Command)
    ensures cmd.WindowScroll? && (cmd.top == NaN || cmd.top.x >= 0.0)
    ensures var y := TargetY(targetOrY, pageYOffset); var offset := OffsetOption(options);
      y.Finite? && offset.Finite? ==> cmd.top == Finite(Max(0.0, y.x - offset.x))
  {
    NativeScroll(targetOrY, options, pageYOffset)
  }

  /** The result of document.querySelector(href). */
  datatype Selection = Selected(top: real) | NoMatch | SelectorThrew

  /** What the click handler sees of the document. Elements are given by
      the top of their bounding rectangle; decode is decodeURIComponent,
      None when it throws. */
  datatype Dom = Dom(
    byId: string -> Option<real>,
    decode: string -> Option<string>,
    select: string -> Selection)

  /** How a click ends: with no action (default navigation proceeds), with
      an exception escaping the handler before preventDefault (navigation
      proceeds too), or with preventDefault and the scroll calls made. */
  datatype Click = NoAction | Escaped | Scrolled(calls: seq<ScrollCall>)

  /** An href attribute that starts with #, as the CSS selector a[href^="#"]
      and the click handler test it. */
  predicate SelectedLink(href: Option<string>)
  {
    href.Some? && |href.value| > 0 && href.value[0] == '#'
  }

  /** The element an href names: getElementById(decodeURIComponent(id)) ||
      document.querySelector(href). */
  datatype Lookup = Target(top: real) | NoTarget | LookupThrew

  function LookupTarget(href: string, dom: Dom): (r: Lookup)
    requires |href| > 0
    ensures dom.decode(href[1..]).None? ==> r == LookupThrew
    ensures dom.decode(href[1..]).Some? && dom.byId(dom.decode(href[1..]).value).Some? ==>
      r == Target(dom.byId(dom.decode(href[1..]).value).value)
    ensures dom.decode(href[1..]).Some? && dom.byId(dom.decode(href[1..]).value).None? ==>
      && (dom.select(href).Selected? ==> r == Target(dom.select(href).top))
      && (dom.select(href).NoMatch? ==> r == NoTarget)
      && (dom.select(href).SelectorThrew? ==> r == LookupThrew)
  {
    match dom.decode(href[1..])
    case None => LookupThrew
    case Some(id) =>
      match dom.byId(id)
      case Some(top) => Target(top)
      case None =>
        match dom.select(href)
        case Selected(top) => Target(top)
        case NoMatch => NoTarget
        case SelectorThrew => LookupThrew
  }

  /** handleAnchorClick for a link whose href attribute is `href` (None when
      it has none). `wrapperThrows` says whether the wrapper's scrollTo
      throws; DefaultAPI.scrollTo does not. */
  function HandleAnchorClick(href: Option<string>, settings: Js, api: Api, dom: Dom, wrapperThrows: bool): (r: Click)
    ensures href.None? || href == Some("") || href.value[0] != '#' ==> r == NoAction
    ensures r.Scrolled? <==> SelectedLink(href) && LookupTarget(href.value, dom).Target?
    ensures r == Escaped <==> SelectedLink(href) && LookupTarget(href.value, dom) == LookupThrew
    ensures r.Scrolled? ==>
      var call := ScrollCall(api, Element(LookupTarget(href.value, dom).top), ClickOptions(settings));
      r.calls == [call] + if api == Wrapper && wrapperThrows then [call.(api := Default)] else []
  {
    if href.None? || href.value == "" || href.value[0] != '#' then NoAction
    else
      match LookupTarget(href.value, dom)
      case LookupThrew => Escaped
      case NoTarget => NoAction
      case Target(top) =>
        var call := ScrollCall(api, Element(top), ClickOptions(settings));
        if api == Wrapper && wrapperThrows then Scrolled([call, ScrollCall(Default, Element(top), ClickOptions(settings))])
        else Scrolled([call])
  }

  /** Every click that scrolls ends with exactly one call that does not
      throw, aimed at the clicked target with the click's options: the
      API's own, or DefaultAPI's after the wrapper threw. */
  lemma ClickEndsInOneScroll(href: Option<string>, settings: Js, api: Api, dom: Dom, wrapperThrows: bool)
    requires HandleAnchorClick(href, settings, api, dom, wrapperThrows).Scrolled?
    ensures var calls := HandleAnchorClick(href, settings, api, dom, wrapperThrows).calls;
      && 1 <= |calls| <= 2
      && calls[0].api == api
      && (forall i :: 0 <= i < |calls| ==> calls[i].target == calls[0].target && calls[i].options == ClickOptions(settings))
      && (|calls| == 2 <==> api == Wrapper && wrapperThrows)
      && (|calls| == 2 ==> calls[1].api == Default)
  {
  }

  /** The worked example: with anchorOffset 80 in the settings and the
      default API, a link to an element whose rectangle starts at 1000 on an
      unscrolled page commands the window to 920. */
  lemma ClickScrollsWithOffset(dom: Dom)
    requires dom.decode("section2") == Some("section2") && dom.byId("section2") == Some(1000.0)
    ensures var settings := Object([("anchorOffset", Num(Finite(80.0)))]);
      var r := HandleAnchorClick(Some("#section2"), settings, Default, dom, false);
      && r.Scrolled? && |r.calls| == 1
      && DefaultScrollTo(r.calls[0].target, r.calls[0].options, 0.0) == WindowScroll(Finite(920.0))
  {
    var settings := Object([("anchorOffset", Num(Finite(80.0)))]);
    assert "#section2"[1..] == "section2";
    assert AnchorOffset(settings) == 80.0;
    assert OffsetOption(ClickOptions(settings)) == Finite(80.0);
  }

  /** bindAnchorLinks binds a selected link when href && href !== '#'. */
  predicate Bindable(href: Option<string>)
  {
    SelectedLink(href) && href.value != "" && href.value != "#"
  }

  /** A link is bound exactly when its href starts with # and has more. */
  lemma BindableIff(href: Option<string>)
    ensures Bindable(href) <==> href.Some? && |href.value| > 1 && href.value[0] == '#'
  {
    if href.Some? && |href.value| == 1 && href.value[0] == '#' {
      assert href.value == "#";
    }
  }

  /** An observable effect of startup, in order. */
  datatype Effect =
      /** API.init(settings) on the wrapper (DefaultAPI's init shows as the
          class on the root element instead) */
    | WrapperInitCalled(settings: Js)
      /** a click listener on link i of the document */
    | ListenerBound(link: nat)
      /** setTimeout of API.scrollTo(target, options) */
    | HashScrollDeferred(call: ScrollCall)
      /** window.dispatchEvent of a CustomEvent with detail { settings } */
    | Dispatched(name: string, settings: Js)

  /** The listeners bindAnchorLinks adds for the first n links, in order. */
  function Bindings(hrefs: seq<Option<string>>, n: nat): seq<Effect>
    requires n <= |hrefs|
  {
    if n == 0 then []
    else Bindings(hrefs, n - 1) + if Bindable(hrefs[n - 1]) then [ListenerBound(n - 1)] else []
  }

  /** Each link gets at most one listener, and gets one exactly when it is
      bindable; bindings only ever name links. */
  lemma {:induction false} BoundIff(hrefs: seq<Option<string>>, n: nat, i: nat)
    requires n <= |hrefs|
    ensures ListenerBound(i) in Bindings(hrefs, n) <==> i < n && Bindable(hrefs[i])
    ensures forall e :: e in Bindings(hrefs, n) ==> e.ListenerBound? && e.link < n
  {
    if n > 0 {
      BoundIff(hrefs, n - 1, i);
    }
  }

  /** The initial hash scroll: for a non-empty location.hash, the element
      whose id is the rest of the hash, not decoded. */
  function HashEffects(hash: string, byId: string -> Option<real>, settings: Js, api: Api): (effects: seq<Effect>)
    ensures |effects| <= 1
    ensures |effects| == 1 <==> hash != "" && byId(hash[1..]).Some?
    ensures |effects| == 1 ==>
      effects[0] == HashScrollDeferred(ScrollCall(api, Element(byId(hash[1..]).value), HashOptions(settings)))
  {
    if hash != "" then
      match byId(hash[1..])
      case Some(top) => [HashScrollDeferred(ScrollCall(api, Element(top), HashOptions(settings)))]
      case None => []
    else []
  }

  /** The event that closes startup. */
  const InitializedEvent := "oss:initialized"

  /** How startup is scheduled for a document.readyState. */
  datatype Schedule = DeferredInit | OnContentLoaded

  function Startup(readyState: string): (s: Schedule)
    ensures s == DeferredInit <==> readyState == "complete" || readyState == "interactive"
  {
    if readyState == "complete" || readyState == "interactive" then DeferredInit else OnContentLoaded
  }

  /** The page the orchestrator runs on. */
  class Page {
    /** the settings read once from window.ossSettings */
    const settings: Js
    /** the API chosen once from window.OSS_SmoothScroll */
    const api: Api
    /** document.documentElement */
    const root: DocumentRoot
    /** what startup has done so far, in order */
    var effects: seq<Effect>

    constructor (ossSettings: Js, wrapper: Js, root: DocumentRoot)
      ensures settings == Settings(ossSettings) && api == SelectApi(wrapper)
      ensures this.root == root && effects == []
    {
      settings := Settings(ossSettings);
      api := SelectApi(wrapper);
      this.root := root;
      effects := [];
    }

    /** bindAnchorLinks over the hrefs of the document's links. */
    method BindAnchorLinks(hrefs: seq<Option<string>>)
      modifies this
      ensures effects == old(effects) + Bindings(hrefs, |hrefs|)
    {
      var i := 0;
      while i < |hrefs|
        invariant 0 <= i <= |hrefs|
        invariant effects == old(effects) + Bindings(hrefs, i)
      {
        var href := hrefs[i];
        if href.Some? && |href.value| > 0 && href.value[0] == '#' && href.value != "#" {
          effects := effects + [ListenerBound(i)];
        }
        i := i + 1;
      }
    }

    /** init. The API's init is called when it is a function (DefaultAPI's
        always is); whatever it throws is swallowed and the API stays the
        same. Then the links are bound, the hash scroll is deferred and the
        initialised event is dispatched. */
    method Init(wrapperHasInit: bool, hrefs: seq<Option<string>>, hash: string, byId: string -> Option<real>)
      modifies this, root
      ensures effects == old(effects) + InitEffects(api, settings, wrapperHasInit, hrefs, hash, byId)
      ensures root.classes == if api == Default then old(root.classes) + {NativeSmoothClass} else old(root.classes)
    {
      ghost var before := effects;
      if api == Default {
        root.AddClass(NativeSmoothClass);
      } else if wrapperHasInit {
        effects := effects + [WrapperInitCalled(settings)];
      }
      ghost var called := if api == Wrapper && wrapperHasInit then [WrapperInitCalled(settings)] else [];
      assert effects == before + called;
      BindAnchorLinks(hrefs);
      if hash != "" {
        var found := byId(hash[1..]);
        if found.Some? {
          effects := effects + [HashScrollDeferred(ScrollCall(api, Element(found.value), HashOptions(settings)))];
        }
      }
      assert effects == before + called + Bindings(hrefs, |hrefs|) + HashEffects(hash, byId, settings, api);
      effects := effects + [Dispatched(InitializedEvent, settings)];
      Regroup(before, called, Bindings(hrefs, |hrefs|), HashEffects(hash, byId, settings, api), [Dispatched(InitializedEvent, settings)]);
    }
  }

  lemma Regroup<T>(a: seq<T>, b: seq<T>, c: seq<T>, d: seq<T>, e: seq<T>)
    ensures a + b + c + d + e == a + (b + c + d + e)
  {
  }

  /** The effects of one run of init from a fresh page. */
  function InitEffects(api: Api, settings: Js, wrapperHasInit: bool, hrefs: seq<Option<string>>, hash: string,
                       byId: string -> Option<real>): seq<Effect>
  {
    (if api == Wrapper && wrapperHasInit then [WrapperInitCalled(settings)] else [])
    + Bindings(hrefs, |hrefs|)
    + HashEffects(hash, byId, settings, api)
    + [Dispatched(InitializedEvent, settings)]
  }

  /** A run of init dispatches the event exactly once and last. */
  lemma DispatchedLast(api: Api, settings: Js, wrapperHasInit: bool, hrefs: seq<Option<string>>, hash: string,
                       byId: string -> Option<real>)
    ensures var effects := InitEffects(api, settings, wrapperHasInit, hrefs, hash, byId);
      && effects[|effects| - 1] == Dispatched(InitializedEvent, settings)
      && forall i :: 0 <= i < |effects| - 1 ==> !effects[i].Dispatched?
  {
    BoundIff(hrefs, |hrefs|, 0);
    PartsInOrder(if api == Wrapper && wrapperHasInit then [WrapperInitCalled(settings)] else [],
      Bindings(hrefs, |hrefs|), HashEffects(hash, byId, settings, api), Dispatched(InitializedEvent, settings), api);
  }

  /** The hash scroll is deferred after every listener is bound, on the same
      API the clicks use. */
  lemma HashScrollAfterBinding(api: Api, settings: Js, wrapperHasInit: bool, hrefs: seq<Option<string>>, hash: string,
                               byId: string -> Option<real>)
    ensures var effects := InitEffects(api, settings, wrapperHasInit, hrefs, hash, byId);
      && (forall i, j :: 0 <= i < j < |effects| && effects[j].ListenerBound? ==> !effects[i].HashScrollDeferred?)
      && (forall i :: 0 <= i < |effects| && effects[i].HashScrollDeferred? ==> effects[i].call.api == api)
  {
    BoundIff(hrefs, |hrefs|, 0);
    PartsInOrder(if api == Wrapper && wrapperHasInit then [WrapperInitCalled(settings)] else [],
      Bindings(hrefs, |hrefs|), HashEffects(hash, byId, settings, api), Dispatched(InitializedEvent, settings), api);
  }

  /** Listeners, then deferred hash scrolls on one API, then the event. */
  lemma PartsInOrder(pre: seq<Effect>, binds: seq<Effect>, hashes: seq<Effect>, last: Effect, api: Api)
    requires forall e :: e in pre ==> e.WrapperInitCalled?
    requires forall e :: e in binds ==> e.ListenerBound?
    requires forall e :: e in hashes ==> e.HashScrollDeferred? && e.call.api == api
    requires last.Dispatched?
    ensures var effects := pre + binds + hashes + [last];
      && (forall i, j :: 0 <= i < j < |effects| && effects[j].ListenerBound? ==> !effects[i].HashScrollDeferred?)
      && (forall i :: 0 <= i < |effects| && effects[i].HashScrollDeferred? ==> effects[i].call.api == api)
      && effects[|effects| - 1] == last
      && (forall i :: 0 <= i < |effects| - 1 ==> !effects[i].Dispatched?)
  {
    var effects := pre + binds + hashes + [last];
    forall i | 0 <= i < |effects|
      ensures effects[i] in pre || effects[i] in binds || effects[i] in hashes || effects[i] == last
      ensures effects[i].ListenerBound? ==> i < |pre| + |binds|
      ensures effects[i].HashScrollDeferred? ==> i >= |pre| + |binds|
      ensures i < |effects| - 1 ==> !effects[i].Dispatched?
    {
      if i < |pre| {
        assert effects[i] == pre[i];
      } else if i < |pre| + |binds| {
        assert effects[i] == binds[i - |pre|];
      } else if i < |pre| + |binds| + |hashes| {
        assert effects[i] == hashes[i - |pre| - |binds|];
      } else {
        assert effects[i] == last;
      }
    }
  }
}

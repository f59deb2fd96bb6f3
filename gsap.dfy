/** libraries/gsap.js: the GSAP wrapper. init sets the ScrollTrigger
    defaults and creates the tweens and ScrollTriggers declared in the
    settings' JSON; scrollTo tweens the window with ScrollToPlugin when that
    is enabled and available, and scrolls the window otherwise. The wrapper
    keeps no state of its own: init is modelled by the calls it makes into
    GSAP, in order. */
module GsapWrapper {
  import opened Wrappers
  import opened JsValues
  import opened Scroll

  /** What the page offers the wrapper. */
  datatype Environment = Environment(
    /** window.gsap is truthy */
    gsap: bool,
    /** gsap.to is truthy */
    hasTo: bool,
    /** gsap.core and gsap.core.globals are truthy */
    coreGlobals: bool,
    /** gsap.core.globals().ScrollTrigger is truthy */
    globalTrigger: bool,
    /** window.ScrollTrigger is truthy */
    windowTrigger: bool,
    /** gsap.plugins and gsap.plugins.ScrollToPlugin are truthy */
    scrollToPlugin: bool)

  /** parseJSONSafe: JSON.parse is a partial function (None when it throws);
      a falsy string or a parse error gives the fallback, and nothing throws. */
  function ParseJsonSafe(str: Js, fallback: Js, parse: Js -> Option<Js>): (r: Js)
    ensures r == fallback || (Truthy(str) && parse(str) == Some(r))
    ensures !Truthy(str) || parse(str).None? ==> r == fallback
    ensures Truthy(str) && parse(str).Some? ==> r == parse(str).value
  {
    if !Truthy(str) then fallback
    else match parse(str)
      case None => fallback
      case Some(v) => v
  }

  /** settings && settings.gsap ? settings.gsap : {} */
  function Config(settings: Js): Js
  {
    if Truthy(settings) && Truthy(Prop(settings, "gsap")) then Prop(settings, "gsap") else Object([])
  }

  datatype TweenKind = From | To

  /** The tween created for a trigger entry, by its position and kind. */
  datatype TweenRef = TweenRef(entry: nat, kind: TweenKind)

  /** A call init makes into GSAP. */
  datatype Call =
      /** ScrollTrigger.defaults(defaults) */
    | SetTriggerDefaults(defaults: Js)
      /** gsap.from(target, vars) or gsap.to(target, vars) for an entry */
    | Tween(entry: nat, kind: TweenKind, target: Js, vars: Js)
      /** ScrollTrigger.create(config) for an entry, config carrying the
          given properties followed by animation: the tween or null */
    | CreateTrigger(entry: nat, config: seq<(string, Js)>, animation: Option<TweenRef>)

  /** What one turn of the trigger loop reads from triggers[i], with
      t = triggers[i] || {} and anim = t.animation || {}. */
  datatype TriggerEntry = TriggerEntry(
    /** anim.from */
    from: Js,
    /** anim.to */
    to: Js,
    /** t.target || t.trigger, the target of the tweens */
    target: Js,
    /** t.trigger */
    trigger: Js,
    /** the own properties of a copy of t with animation and target deleted */
    config: seq<(string, Js)>)

  /** Reads triggers[i]. A falsy entry reads as the empty object. */
  function ReadEntry(entry: Js): (e: TriggerEntry)
    ensures !Truthy(entry) ==> e == TriggerEntry(Undefined, Undefined, Undefined, Undefined, [])
    ensures entry.Object? ==> forall p :: p in e.config <==> p in entry.props && p.0 != "animation" && p.0 != "target"
    ensures forall p :: p in e.config ==> p.0 != "animation" && p.0 != "target"
  {
    var t := Or(entry, Object([]));
    var anim := Or(Prop(t, "animation"), Object([]));
    TriggerEntry(Prop(anim, "from"), Prop(anim, "to"), Or(Prop(t, "target"), Prop(t, "trigger")), Prop(t, "trigger"),
      if t.Object? then Without(t.props) else [])
  }

  /** The entries of the parsed triggers array, read one by one. */
  function ReadEntries(items: seq<Js>): (entries: seq<TriggerEntry>)
    ensures |entries| == |items|
    ensures forall i :: 0 <= i < |items| ==> entries[i] == ReadEntry(items[i])
  {
    seq(|items|, i requires 0 <= i < |items| => ReadEntry(items[i]))
  }

  function Without(props: seq<(string, Js)>): (r: seq<(string, Js)>)
    ensures forall p :: p in r <==> p in props && p.0 != "animation" && p.0 != "target"
  {
    if props == [] then []
    else
      var rest := Without(props[1..]);
      assert forall p :: p in props <==> p == props[0] || p in props[1..];
      if props[0].0 != "animation" && props[0].0 != "target" then [props[0]] + rest else rest
  }

  predicate HasTrigger(e: TriggerEntry) { Truthy(e.trigger) }

  /** The tween variable after an entry: the to tween when declared, else
      the from tween when declared, else what the variable already held. */
  function EntryTween(e: TriggerEntry, i: nat, held: Option<TweenRef>): Option<TweenRef>
  {
    if Truthy(e.to) then Some(TweenRef(i, To))
    else if Truthy(e.from) then Some(TweenRef(i, From))
    else held
  }

  /** The ScrollTrigger.create call for entry i when the tween variable
      holds `held` before the entry. */
  function TriggerOf(e: TriggerEntry, i: nat, held: Option<TweenRef>): Call
  {
    CreateTrigger(i, e.config, EntryTween(e, i, held))
  }

  /** The ScrollTrigger created for an entry: one when the loop has a
      ScrollTrigger and the entry a trigger, none otherwise. */
  function Created(e: TriggerEntry, i: nat, held: Option<TweenRef>, st: bool): seq<Call>
  {
    if st && HasTrigger(e) then [TriggerOf(e, i, held)] else []
  }

  /** The calls for entry i when the tween variable holds `held` on entry:
      gsap.from, then gsap.to, then ScrollTrigger.create. */
  function EntryCalls(e: TriggerEntry, i: nat, held: Option<TweenRef>, st: bool): seq<Call>
  {
    (if Truthy(e.from) then [Tween(i, From, e.target, e.from)] else [])
    + (if Truthy(e.to) then [Tween(i, To, e.target, e.to)] else [])
    + Created(e, i, held, st)
  }

  /** The state of the trigger loop: the calls made so far and the tween
      variable. */
  datatype Progress = Progress(calls: seq<Call>, tween: Option<TweenRef>)

  /** The trigger loop over the first n entries, as written. The tween
      variable is declared with var inside the loop body, so it is one
      variable for the whole function and is never reset between entries. */
  function Run(entries: seq<TriggerEntry>, n: nat, st: bool): Progress
    requires n <= |entries|
  {
    if n == 0 then Progress([], None)
    else
      var p := Run(entries, n - 1, st);
      Progress(p.calls + EntryCalls(entries[n - 1], n - 1, p.tween, st), EntryTween(entries[n - 1], n - 1, p.tween))
  }

  /** The calls of the trigger loop over the first n entries, as written. */
  function TriggerCalls(entries: seq<TriggerEntry>, n: nat, st: bool): seq<Call>
    requires n <= |entries|
  {
    Run(entries, n, st).calls
  }

  /** The ScrollTrigger the loop uses: the one from gsap.core.globals() when
      that exists, window.ScrollTrigger otherwise. */
  function LoopTrigger(env: Environment): bool
  {
    if env.coreGlobals then env.globalTrigger else env.windowTrigger
  }

  /** The ScrollTrigger.defaults call, made when the global plugin exists. */
  function DefaultsCalls(cfg: Js, env: Environment): seq<Call>
  {
    if env.coreGlobals && env.globalTrigger then [SetTriggerDefaults(Or(Prop(cfg, "scrollTriggerDefaults"), Object([])))] else []
  }

  /** OSS.init. Nothing happens without window.gsap. Triggers are read only
      from a non-empty parsed array, and only when gsap.to exists. Exceptions
      thrown by gsap.from and gsap.to are not modelled. */
  method Init(settings: Js, env: Environment, parse: Js -> Option<Js>) returns (calls: seq<Call>)
    ensures !env.gsap ==> calls == []
    ensures env.gsap ==>
      var cfg := Config(settings);
      var triggers := ParseJsonSafe(Prop(cfg, "triggersJSON"), Array([]), parse);
      calls == DefaultsCalls(cfg, env) +
        if triggers.Array? && |triggers.items| > 0 && env.hasTo
        then TriggerCalls(ReadEntries(triggers.items), |triggers.items|, LoopTrigger(env)) else []
  {
    if !env.gsap {
      return [];
    }
    var cfg := Config(settings);
    calls := DefaultsCalls(cfg, env);
    var triggers := ParseJsonSafe(Prop(cfg, "triggersJSON"), Array([]), parse);
    if triggers.Array? && |triggers.items| > 0 && env.hasTo {
      var more := RunTriggers(ReadEntries(triggers.items), LoopTrigger(env));
      calls := calls + more;
    }
  }

  /** The trigger loop of OSS.init, over the entries as read. Reading an
      entry has no effects, so reading them all first changes nothing. */
  method RunTriggers(entries: seq<TriggerEntry>, st: bool) returns (calls: seq<Call>)
    ensures calls == TriggerCalls(entries, |entries|, st)
  {
    calls := [];
    var tween: Option<TweenRef> := None;
    var i := 0;
    while i < |entries|
      invariant 0 <= i <= |entries|
      invariant Progress(calls, tween) == Run(entries, i, st)
    {
      var step;
      step, tween := ProcessEntry(entries[i], i, tween, st);
      calls := calls + step;
      i := i + 1;
    }
  }

  /** One turn of the trigger loop: the calls made for entry i and the new
      value of the tween variable. */
  method ProcessEntry(e: TriggerEntry, i: nat, held: Option<TweenRef>, st: bool)
    returns (step: seq<Call>, tween: Option<TweenRef>)
    ensures step == EntryCalls(e, i, held, st)
    ensures tween == EntryTween(e, i, held)
  {
    step, tween := [], held;
    if Truthy(e.from) {
      step := step + [Tween(i, From, e.target, e.from)];
      tween := Some(TweenRef(i, From));
    }
    if Truthy(e.to) {
      step := step + [Tween(i, To, e.target, e.to)];
      tween := Some(TweenRef(i, To));
    }
    if st && Truthy(e.trigger) {
      step := step + [CreateTrigger(i, e.config, tween)];
    }
  }

  // ---------------------------------------------------------------------------
  // Properties of the trigger loop

  /** The ScrollTrigger.create calls among a list of calls, in order. */
  function Triggers(calls: seq<Call>): seq<Call>
  {
    if calls == [] then []
    else (if calls[0].CreateTrigger? then [calls[0]] else []) + Triggers(calls[1..])
  }

  lemma {:induction false} TriggersAppend(a: seq<Call>, b: seq<Call>)
    ensures Triggers(a + b) == Triggers(a) + Triggers(b)
  {
    if a == [] {
      assert a + b == b;
    } else {
      assert (a + b)[0] == a[0];
      assert (a + b)[1..] == a[1..] + b;
      TriggersAppend(a[1..], b);
    }
  }

  lemma TriggersOfStep(prev: seq<Call>, step: seq<Call>, before: seq<Call>, created: seq<Call>)
    requires Triggers(prev) == before && Triggers(step) == created
    ensures Triggers(prev + step) == before + created
  {
    TriggersAppend(prev, step);
  }

  /** The only ScrollTrigger among an entry's calls is the one Created says. */
  lemma EntryTriggers(e: TriggerEntry, i: nat, held: Option<TweenRef>, st: bool)
    ensures Triggers(EntryCalls(e, i, held, st)) == Created(e, i, held, st)
  {
    var a := if Truthy(e.from) then [Tween(i, From, e.target, e.from)] else [];
    var b := if Truthy(e.to) then [Tween(i, To, e.target, e.to)] else [];
    TriggersAppend(a + b, Created(e, i, held, st));
    TriggersAppend(a, b);
  }

  /** The ScrollTriggers the loop as written creates: one per entry that has
      a trigger, in entry order, each carrying the tween the loop variable
      holds after that entry. */
  function TriggersAsWritten(entries: seq<TriggerEntry>, n: nat, st: bool): seq<Call>
    requires n <= |entries|
  {
    if n == 0 then []
    else TriggersAsWritten(entries, n - 1, st) + Created(entries[n - 1], n - 1, Run(entries, n - 1, st).tween, st)
  }

  /** The ScrollTriggers a loop with a fresh tween variable per entry would
      create: each carries the entry's own tween, or null. */
  function TriggersIntended(entries: seq<TriggerEntry>, n: nat, st: bool): seq<Call>
    requires n <= |entries|
  {
    if n == 0 then []
    else TriggersIntended(entries, n - 1, st) + Created(entries[n - 1], n - 1, None, st)
  }

  /** As written, the loop creates exactly the ScrollTriggers of TriggersAsWritten. */
  lemma {:induction false} CreatedTriggers(entries: seq<TriggerEntry>, n: nat, st: bool)
    requires n <= |entries|
    ensures Triggers(TriggerCalls(entries, n, st)) == TriggersAsWritten(entries, n, st)
  {
    if n > 0 {
      CreatedTriggers(entries, n - 1, st);
      CreatedStep(entries, n, st);
    }
  }

  /** One more entry adds its own ScrollTrigger, if any, to those created so far. */
  lemma CreatedStep(entries: seq<TriggerEntry>, n: nat, st: bool)
    requires 0 < n <= |entries|
    requires Triggers(TriggerCalls(entries, n - 1, st)) == TriggersAsWritten(entries, n - 1, st)
    ensures Triggers(TriggerCalls(entries, n, st)) == TriggersAsWritten(entries, n, st)
  {
    var m := n - 1;
    var e, prev := entries[m], Run(entries, m, st);
    EntryTriggers(e, m, prev.tween, st);
    TriggersOfStep(prev.calls, EntryCalls(e, m, prev.tween, st),
      TriggersAsWritten(entries, m, st), Created(e, m, prev.tween, st));
  }

  /** The calls of the trigger loop with the tween variable reset for every
      entry, as a block-scoped declaration would make it. */
  function IntendedTriggerCalls(entries: seq<TriggerEntry>, n: nat, st: bool): seq<Call>
    requires n <= |entries|
  {
    if n == 0 then []
    else IntendedTriggerCalls(entries, n - 1, st) + EntryCalls(entries[n - 1], n - 1, None, st)
  }

  /** The intended loop creates exactly the ScrollTriggers of TriggersIntended. */
  lemma {:induction false} IntendedTriggers(entries: seq<TriggerEntry>, n: nat, st: bool)
    requires n <= |entries|
    ensures Triggers(IntendedTriggerCalls(entries, n, st)) == TriggersIntended(entries, n, st)
  {
    if n > 0 {
      IntendedTriggers(entries, n - 1, st);
      IntendedStep(entries, n, st);
    }
  }

  /** One more entry adds its own ScrollTrigger, carrying only its own tween. */
  lemma IntendedStep(entries: seq<TriggerEntry>, n: nat, st: bool)
    requires 0 < n <= |entries|
    requires Triggers(IntendedTriggerCalls(entries, n - 1, st)) == TriggersIntended(entries, n - 1, st)
    ensures Triggers(IntendedTriggerCalls(entries, n, st)) == TriggersIntended(entries, n, st)
  {
    var m := n - 1;
    var e := entries[m];
    EntryTriggers(e, m, None, st);
    TriggersOfStep(IntendedTriggerCalls(entries, m, st), EntryCalls(e, m, None, st),
      TriggersIntended(entries, m, st), Created(e, m, None, st));
  }

  /** A ScrollTrigger's animation is the entry's own tween when it declares
      one (the to tween when it declares both); otherwise, as written, the
      tween held over from earlier entries, and, as intended, null. Its
      config never carries the entry's animation or target. */
  lemma TriggerAnimation(item: Js, i: nat, held: Option<TweenRef>)
    ensures var e := ReadEntry(item);
      && (Truthy(e.to) ==> TriggerOf(e, i, held).animation == Some(TweenRef(i, To)))
      && (!Truthy(e.to) && Truthy(e.from) ==> TriggerOf(e, i, held).animation == Some(TweenRef(i, From)))
      && (!Truthy(e.to) && !Truthy(e.from) ==> TriggerOf(e, i, held).animation == held && TriggerOf(e, i, None).animation == None)
      && forall p :: p in TriggerOf(e, i, held).config ==> p.0 != "animation" && p.0 != "target"
  {
  }

  /** An entry that declares both tweens makes gsap.from and then gsap.to,
      and the tween variable keeps the to tween. */
  lemma BothTweens(e: TriggerEntry, i: nat, held: Option<TweenRef>)
    requires Truthy(e.from) && Truthy(e.to)
    ensures EntryTween(e, i, held) == Some(TweenRef(i, To))
    ensures EntryCalls(e, i, held, false) == [Tween(i, From, e.target, e.from), Tween(i, To, e.target, e.to)]
  {
  }

  /** When no entry with a trigger depends on the loop variable (each one
      declares its own tween), the loop as written makes the intended calls. */
  lemma {:induction false} AsWrittenMatchesIntended(entries: seq<TriggerEntry>, n: nat, st: bool)
    requires n <= |entries|
    requires forall i :: 0 <= i < n && HasTrigger(entries[i]) ==> EntryTween(entries[i], i, None).Some?
    ensures TriggerCalls(entries, n, st) == IntendedTriggerCalls(entries, n, st)
  {
    if n > 0 {
      AsWrittenMatchesIntended(entries, n - 1, st);
      var p := Run(entries, n - 1, st);
      assert Created(entries[n - 1], n - 1, p.tween, st) == Created(entries[n - 1], n - 1, None, st);
    }
  }

  /** The first entry animates #a and has a trigger; the second has only a
      trigger. */
  function LeakExample(): seq<Js>
  {
    [ Object([("trigger", Str("#a")), ("animation", Object([("to", Object([("x", Num(Finite(100.0)))]))]))]),
      Object([("trigger", Str("#b"))]) ]
  }

  /** The two entries of LeakExample as the loop reads them. */
  function LeakEntries(): seq<TriggerEntry>
  {
    [ TriggerEntry(Undefined, Object([("x", Num(Finite(100.0)))]), Str("#a"), Str("#a"), [("trigger", Str("#a"))]),
      TriggerEntry(Undefined, Undefined, Str("#b"), Str("#b"), [("trigger", Str("#b"))]) ]
  }

  lemma ReadLeakExample()
    ensures ReadEntries(LeakExample()) == LeakEntries()
  {
    ReadPair(LeakExample());
    ReadFirstLeakEntry();
    ReadSecondLeakEntry();
  }

  lemma ReadPair(items: seq<Js>)
    requires |items| == 2
    ensures ReadEntries(items) == [ReadEntry(items[0]), ReadEntry(items[1])]
  {
  }

  lemma ReadFirstLeakEntry()
    ensures ReadEntry(LeakExample()[0]) == LeakEntries()[0]
  {
  }

  lemma ReadSecondLeakEntry()
    ensures ReadEntry(LeakExample()[1]) == LeakEntries()[1]
  {
  }

  /** As written, the ScrollTrigger of #b is handed the tween of #a; the
      intended loop hands it null. */
  lemma TweenLeaksIntoLaterTrigger()
    ensures TriggersAsWritten(ReadEntries(LeakExample()), 2, true) ==
      [CreateTrigger(0, [("trigger", Str("#a"))], Some(TweenRef(0, To))),
       CreateTrigger(1, [("trigger", Str("#b"))], Some(TweenRef(0, To)))]
    ensures TriggersIntended(ReadEntries(LeakExample()), 2, true) ==
      [CreateTrigger(0, [("trigger", Str("#a"))], Some(TweenRef(0, To))),
       CreateTrigger(1, [("trigger", Str("#b"))], None)]
  {
    ReadLeakExample();
    LeakAsWritten();
    LeakIntended();
  }

  lemma LeakAsWritten()
    ensures TriggersAsWritten(LeakEntries(), 2, true) ==
      [CreateTrigger(0, [("trigger", Str("#a"))], Some(TweenRef(0, To))),
       CreateTrigger(1, [("trigger", Str("#b"))], Some(TweenRef(0, To)))]
  {
    assert Run(LeakEntries(), 1, true).tween == Some(TweenRef(0, To));
  }

  lemma LeakIntended()
    ensures TriggersIntended(LeakEntries(), 2, true) ==
      [CreateTrigger(0, [("trigger", Str("#a"))], Some(TweenRef(0, To))),
       CreateTrigger(1, [("trigger", Str("#b"))], None)]
  {
  }

  // ---------------------------------------------------------------------------
  // OSS.scrollTo

  /** The offset of OSS.scrollTo: options.offset when it is a number, else
      window.ossSettings.gsap.offset || 0, coerced to a number by the
      subtraction. */
  function GsapOffset(options: Js, cfg: Js): Number
  {
    var offset := Prop(options, "offset");
    if Truthy(options) && offset.Num? then offset.n
    else ToNumber(Or(Prop(cfg, "offset"), Num(Finite(0.0))))
  }

  /** OSS.scrollTo. `windowSettings` is window.ossSettings and `tweenThrows`
      whether gsap.to throws. The window is tweened with ScrollToPlugin when
      GSAP, enableScrollTo and the plugin are all present and the tween does
      not throw; otherwise it is scrolled to the same clamped top. */
  function ScrollTo(targetOrY: Js, options: Js, pageYOffset: real, env: Environment, windowSettings: Js, tweenThrows: bool): (cmd: Command)
    ensures var cfg := Config(windowSettings);
      cmd.GsapScroll? <==> env.gsap && Truthy(Prop(cfg, "enableScrollTo")) && env.scrollToPlugin && !tweenThrows
    ensures cmd.GsapScroll? || cmd.WindowScroll?
    ensures var top := if cmd.GsapScroll? then cmd.y else cmd.top;
      var y := TargetY(targetOrY, pageYOffset); var offset := GsapOffset(options, Config(windowSettings));
      && (top == NaN || top.x >= 0.0)
      && (y.Finite? && offset.Finite? ==> top == Finite(Max(0.0, y.x - offset.x)))
    ensures cmd.GsapScroll? ==>
      var cfg := Config(windowSettings);
      && (Prop(cfg, "duration").Num? ==> cmd.seconds == Prop(cfg, "duration").n)
      && (!Prop(cfg, "duration").Num? ==> cmd.seconds == Finite(1.0))
      && cmd.ease == (if Truthy(Prop(cfg, "ease")) then Prop(cfg, "ease") else Str("power2.out"))
      && cmd.autoKill == Truthy(Prop(cfg, "autoKill")) && cmd.overwrite == Truthy(Prop(cfg, "overwrite"))
  {
    var cfg := Config(windowSettings);
    var top := MaxZero(Sub(TargetY(targetOrY, pageYOffset), GsapOffset(options, cfg)));
    var duration := Prop(cfg, "duration");
    if env.gsap && Truthy(Prop(cfg, "enableScrollTo")) && env.scrollToPlugin && !tweenThrows then
      GsapScroll(top, if duration.Num? then duration.n else Finite(1.0), Or(Prop(cfg, "ease"), Str("power2.out")),
        Truthy(Prop(cfg, "autoKill")), Truthy(Prop(cfg, "overwrite")))
    else WindowScroll(top)
  }

  /** With a numeric offset in the options, OSS.scrollTo lands where every
      other wrapper's window fallback lands; without one it falls back to
      the gsap settings' offset instead of 0. */
  lemma ScrollToOffset(targetOrY: Js, options: Js, pageYOffset: real, env: Environment, windowSettings: Js, tweenThrows: bool)
    ensures var cmd := ScrollTo(targetOrY, options, pageYOffset, env, windowSettings, tweenThrows);
      var top := if cmd.GsapScroll? then cmd.y else cmd.top;
      && (Truthy(options) && Prop(options, "offset").Num? ==> top == ClampedTop(targetOrY, options, pageYOffset))
      && (!Truthy(Prop(Config(windowSettings), "offset")) ==> top == ClampedTop(targetOrY, options, pageYOffset))
  {
  }
}

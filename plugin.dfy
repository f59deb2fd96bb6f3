/** The options layer of includes/class-oss-plugin.php: the default option
    map, the recursive override-wins merge, the resolution of saved options
    over the defaults, the active library, and the one-time bootstrap. */
module Plugin {
  import opened PhpValues

  const LibraryKey := "active_library"
  const OffsetKey := "anchor_offset"
  const MobileKey := "enable_mobile"
  const LocationKey := "script_location"

  /** Libraries get_options lets through. */
  const ResolvableLibraries: seq<string> := ["locomotive", "gsap", "lenis"]
  const ScriptLocations: seq<string> := ["header", "footer"]

  /** get_default_options, with the oss_default_options filter taken as the identity. */
  function Defaults(): Entries
  {
    [ (LibraryKey, Str("lenis")),
      (OffsetKey, Int(0)),
      (MobileKey, Int(1)),
      (LocationKey, Str("footer")),
      ("locomotive", Arr(LocomotiveDefaults())),
      ("lenis", Arr(LenisDefaults())),
      ("gsap", Arr(GsapDefaults()))
    ]
  }

  /** The default locomotive block. */
  function LocomotiveDefaults(): Entries
  {
    [ ("elSelector", Str("body")),
        ("smooth", Bool(true)),
        ("smoothMobile", Bool(true)),
        ("lerp", Float(0.1)),
        ("multiplier", Int(1)),
        ("firefoxMultiplier", Int(1)),
        ("touchMultiplier", Int(2)),
        ("direction", Str("vertical")),
        ("gestureDirection", Str("vertical")),
        ("class", Str("is-inview")),
        ("scrollbarClass", Str("c-scrollbar")),
        ("scrollingClass", Str("has-scroll-scrolling")),
        ("draggingClass", Str("has-scroll-dragging")),
        ("smoothClass", Str("has-smooth")),
        ("initClass", Str("has-scroll-init")),
        ("getDirection", Bool(true)),
        ("scrollFromAnywhere", Bool(true)),
        ("reloadOnContextChange", Bool(false)),
        ("resetNativeScroll", Bool(false)),
        ("tablet", Arr([
          ("smooth", Bool(true)),
          ("breakpoint", Int(1024)),
          ("direction", Str("vertical")),
          ("gestureDirection", Str("vertical")),
          ("multiplier", Int(1)),
          ("firefoxMultiplier", Int(1))])),
        ("smartphone", Arr([
          ("smooth", Bool(false)),
          ("breakpoint", Int(768)),
          ("direction", Str("vertical")),
          ("gestureDirection", Str("vertical")),
          ("multiplier", Int(1)),
          ("firefoxMultiplier", Int(1))])),
        ("custom", Str(""))]
  }

  /** The default lenis block. */
  function LenisDefaults(): Entries
  {
    [ ("duration", Float(1.2)),
        ("easing", Str("cubic-bezier(0.22, 1, 0.36, 1)")),
        ("lerp", Float(0.1)),
        ("smoothWheel", Bool(true)),
        ("smoothTouch", Bool(false)),
        ("wheelMultiplier", Float(1.0)),
        ("touchMultiplier", Float(1.5)),
        ("infinite", Bool(false)),
        ("autoResize", Bool(true)),
        ("normalizeWheel", Bool(true)),
        ("orientation", Str("vertical")),
        ("gestureOrientation", Str("vertical")),
        ("syncTouch", Bool(false)),
        ("wrapperSelector", Str("")),
        ("contentSelector", Str("")),
        ("custom", Str(""))]
  }

  /** The default gsap block; triggersJSON holds a JSON array of ScrollTrigger configurations. */
  function GsapDefaults(): Entries
  {
    [ ("enableScrollTo", Bool(true)),
        ("duration", Float(1.0)),
        ("ease", Str("power2.out")),
        ("autoKill", Bool(true)),
        ("overwrite", Bool(true)),
        ("offset", Int(0)),
        ("scrollTriggerDefaults", Arr([
          ("scrub", Bool(false)),
          ("markers", Bool(false)),
          ("pin", Bool(false)),
          ("toggleActions", Str("play pause resume reset")),
          ("anticipatePin", Int(0)),
          ("fastScrollEnd", Bool(true)),
          ("preventOverlaps", Bool(false)),
          ("once", Bool(false)),
          ("horizontal", Bool(false))])),
        ("triggersJSON", Str(""))]
  }

  /** The default map has exactly seven top-level keys, in this order, with
      distinct keys; it has no scroll_speed and no easing entry, so reading
      either yields null. */
  lemma DefaultsShape()
    ensures Keys(Defaults()) == [LibraryKey, OffsetKey, MobileKey, LocationKey, "locomotive", "lenis", "gsap"]
    ensures Distinct(Defaults())
    ensures Get(Defaults(), "scroll_speed") == Null && Get(Defaults(), "easing") == Null
  {
    TopLevelKeys(Str("lenis"), Int(0), Int(1), Str("footer"),
      Arr(LocomotiveDefaults()), Arr(LenisDefaults()), Arr(GsapDefaults()));
    TopLevelMissing(Str("lenis"), Int(0), Int(1), Str("footer"),
      Arr(LocomotiveDefaults()), Arr(LenisDefaults()), Arr(GsapDefaults()));
  }

  /** The four scalar defaults get_options falls back on. */
  lemma DefaultScalars()
    ensures Get(Defaults(), LibraryKey) == Str("lenis") && Get(Defaults(), OffsetKey) == Int(0)
    ensures Get(Defaults(), MobileKey) == Int(1) && Get(Defaults(), LocationKey) == Str("footer")
  {
    TopLevelScalars(Str("lenis"), Int(0), Int(1), Str("footer"),
      Arr(LocomotiveDefaults()), Arr(LenisDefaults()), Arr(GsapDefaults()));
  }

  /** The key layout of a map with the seven default keys, whatever their values. */
  lemma TopLevelKeys(library: Value, offset: Value, mobile: Value, location: Value, locomotive: Value, lenis: Value, gsap: Value)
    ensures var d := [(LibraryKey, library), (OffsetKey, offset), (MobileKey, mobile), (LocationKey, location),
                      ("locomotive", locomotive), ("lenis", lenis), ("gsap", gsap)];
      && Keys(d) == [LibraryKey, OffsetKey, MobileKey, LocationKey, "locomotive", "lenis", "gsap"]
      && Distinct(d)
  {
    var d := [(LibraryKey, library), (OffsetKey, offset), (MobileKey, mobile), (LocationKey, location),
              ("locomotive", locomotive), ("lenis", lenis), ("gsap", gsap)];
    var names := [LibraryKey, OffsetKey, MobileKey, LocationKey, "locomotive", "lenis", "gsap"];
    assert forall i :: 0 <= i < |d| ==> d[i].0 == names[i];
    NamesDistinct(names);
    DistinctByKeys(d, names);
  }

  /** The seven default keys differ pairwise: all but two differ in length,
      and those two in their first letter. */
  lemma NamesDistinct(names: seq<string>)
    requires names == [LibraryKey, OffsetKey, MobileKey, LocationKey, "locomotive", "lenis", "gsap"]
    ensures forall i, j :: 0 <= i < j < |names| ==> names[i] != names[j]
  {
    var lengths := [14, 13, 13, 15, 10, 5, 4];
    assert forall i :: 0 <= i < |names| ==> |names[i]| == lengths[i];
    assert names[1][0] != names[2][0];
  }

  /** An array whose keys are a list of distinct names has distinct keys and those keys. */
  lemma DistinctByKeys(d: Entries, names: seq<string>)
    requires |d| == |names| && forall i :: 0 <= i < |d| ==> d[i].0 == names[i]
    requires forall i, j :: 0 <= i < j < |names| ==> names[i] != names[j]
    ensures Keys(d) == names && Distinct(d)
  {
  }

  /** A map with the seven default keys has no scroll_speed and no easing. */
  lemma TopLevelMissing(library: Value, offset: Value, mobile: Value, location: Value, locomotive: Value, lenis: Value, gsap: Value)
    ensures var d := [(LibraryKey, library), (OffsetKey, offset), (MobileKey, mobile), (LocationKey, location),
                      ("locomotive", locomotive), ("lenis", lenis), ("gsap", gsap)];
      Get(d, "scroll_speed") == Null && Get(d, "easing") == Null
  {
    var d := [(LibraryKey, library), (OffsetKey, offset), (MobileKey, mobile), (LocationKey, location),
              ("locomotive", locomotive), ("lenis", lenis), ("gsap", gsap)];
    assert "scroll_speed" !in KeySet(d) && "easing" !in KeySet(d) by {
      forall i | 0 <= i < |d| ensures d[i].0 != "scroll_speed" && d[i].0 != "easing" { }
    }
    GetMissing(d, "scroll_speed");
    GetMissing(d, "easing");
  }

  /** The first four values of a map with the seven default keys. */
  lemma TopLevelScalars(library: Value, offset: Value, mobile: Value, location: Value, locomotive: Value, lenis: Value, gsap: Value)
    ensures var d := [(LibraryKey, library), (OffsetKey, offset), (MobileKey, mobile), (LocationKey, location),
                      ("locomotive", locomotive), ("lenis", lenis), ("gsap", gsap)];
      && Get(d, LibraryKey) == library && Get(d, OffsetKey) == offset
      && Get(d, MobileKey) == mobile && Get(d, LocationKey) == location
  {
    var d := [(LibraryKey, library), (OffsetKey, offset), (MobileKey, mobile), (LocationKey, location),
              ("locomotive", locomotive), ("lenis", lenis), ("gsap", gsap)];
    GetAt(d, 0);
    GetAt(d, 1);
    GetAt(d, 2);
    GetAt(d, 3);
  }

  // ---------------------------------------------------------------------------
  // deep_merge

  /** The value deep_merge stores at a key: when base and override both hold
      arrays it merges them recursively, otherwise the override wins (an
      array override replaces a scalar base, and a scalar replaces an array). */
  function MergeValue(current: Value, override: Value): Value
    decreases override, if override.Arr? then |override.entries| + 1 else 0
  {
    if override.Arr? && current.Arr? then Arr(MergeFrom(current.entries, override, 0))
    else override
  }

  /** Folds the overrides from position i onwards into base, in their order. */
  function MergeFrom(base: Entries, overrides: Value, i: nat): Entries
    requires overrides.Arr? && i <= |overrides.entries|
    decreases overrides, |overrides.entries| - i
  {
    if i == |overrides.entries| then base
    else
      var key := overrides.entries[i].0;
      MergeFrom(Put(base, key, MergeValue(Get(base, key), overrides.entries[i].1)), overrides, i + 1)
  }

  /** deep_merge($base, $overrides) as a value. */
  function Merged(base: Entries, overrides: Entries): Entries
  {
    MergeFrom(base, Arr(overrides), 0)
  }

  /** deep_merge as the source writes it: a loop over the overrides that
      assigns into a copy of base and recurses where both sides hold arrays. */
  method DeepMerge(base: Entries, overrides: Entries) returns (result: Entries)
    ensures result == Merged(base, overrides)
    decreases Arr(overrides)
  {
    ghost var target := Merged(base, overrides);
    result := base;
    var i := 0;
    while i < |overrides|
      invariant 0 <= i <= |overrides|
      invariant MergeFrom(result, Arr(overrides), i) == target
    {
      var key, value := overrides[i].0, overrides[i].1;
      var current := Get(result, key);
      var merged := value;
      if value.Arr? && current.Arr? {
        var nested := DeepMerge(current.entries, value.entries);
        merged := Arr(nested);
        MergeArrays(current, value);
      }
      MergeStep(result, overrides, i, merged);
      result := Put(result, key, merged);
      i := i + 1;
    }
  }

  /** Where both sides hold arrays, the value stored is the merge of the two. */
  lemma MergeArrays(current: Value, override: Value)
    requires current.Arr? && override.Arr?
    ensures MergeValue(current, override) == Arr(Merged(current.entries, override.entries))
  {
  }

  /** One iteration of the merge loop: storing the merged value of the next
      override and folding the rest gives the same as folding from it. */
  lemma MergeStep(state: Entries, overrides: Entries, i: nat, merged: Value)
    requires i < |overrides|
    requires merged == MergeValue(Get(state, overrides[i].0), overrides[i].1)
    ensures MergeFrom(Put(state, overrides[i].0, merged), Arr(overrides), i + 1)
      == MergeFrom(state, Arr(overrides), i)
  {
  }

  /** Keys: the base keys keep their positions, new keys are appended, the
      key set is the union, and merging nothing gives base back. */
  lemma {:induction false} MergeFromKeys(base: Entries, overrides: Value, i: nat)
    requires overrides.Arr? && i <= |overrides.entries|
    ensures var r := MergeFrom(base, overrides, i);
      && KeyPrefix(base, r)
      && KeySet(r) == KeySet(base) + KeySet(overrides.entries[i..])
      && (Distinct(base) ==> Distinct(r))
    decreases |overrides.entries| - i
  {
    if i < |overrides.entries| {
      var key := overrides.entries[i].0;
      var value := MergeValue(Get(base, key), overrides.entries[i].1);
      var next := Put(base, key, value);
      assert MergeFrom(base, overrides, i) == MergeFrom(next, overrides, i + 1);
      MergeFromKeys(next, overrides, i + 1);
      PutKeySet(base, key, value);
      PutPrefix(base, key, value);
      if Distinct(base) { PutDistinct(base, key, value); }
      KeySetFrom(overrides.entries, i);
      KeysCompose(base, next, MergeFrom(next, overrides, i + 1), key, KeySet(overrides.entries[i + 1..]));
    } else {
      assert KeySet(overrides.entries[i..]) == {};
    }
  }

  /** Key facts compose along two successive updates. */
  lemma KeysCompose(base: Entries, next: Entries, r: Entries, key: string, later: set<string>)
    requires KeyPrefix(base, next) && KeySet(next) == KeySet(base) + {key} && (Distinct(base) ==> Distinct(next))
    requires KeyPrefix(next, r) && KeySet(r) == KeySet(next) + later && (Distinct(next) ==> Distinct(r))
    ensures KeyPrefix(base, r) && KeySet(r) == KeySet(base) + ({key} + later) && (Distinct(base) ==> Distinct(r))
  {
  }

  lemma KeySetFrom(es: Entries, i: nat)
    requires i < |es|
    ensures KeySet(es[i..]) == {es[i].0} + KeySet(es[i + 1..])
  {
    forall x | x in KeySet(es[i..]) ensures x in {es[i].0} + KeySet(es[i + 1..]) {
      var j :| 0 <= j < |es[i..]| && es[i..][j].0 == x;
      if j > 0 { assert es[i + 1..][j - 1].0 == x; }
    }
    forall x | x in KeySet(es[i + 1..]) ensures x in KeySet(es[i..]) {
      var j :| 0 <= j < |es[i + 1..]| && es[i + 1..][j].0 == x;
      assert es[i..][j + 1].0 == x;
    }
    assert es[i..][0].0 == es[i].0;
  }

  /** A key the overrides from position i onwards do not mention keeps its base value. */
  lemma {:induction false} MergeFromKeepsUntouched(base: Entries, overrides: Value, i: nat, k: string)
    requires overrides.Arr? && i <= |overrides.entries|
    requires forall j :: i <= j < |overrides.entries| ==> overrides.entries[j].0 != k
    ensures Get(MergeFrom(base, overrides, i), k) == Get(base, k)
    decreases |overrides.entries| - i
  {
    if i < |overrides.entries| {
      var key := overrides.entries[i].0;
      var next := Put(base, key, MergeValue(Get(base, key), overrides.entries[i].1));
      assert MergeFrom(base, overrides, i) == MergeFrom(next, overrides, i + 1);
      MergeFromKeepsUntouched(next, overrides, i + 1, k);
      PutGet(base, key, MergeValue(Get(base, key), overrides.entries[i].1), k);
    }
  }

  /** With distinct override keys, a key overridden at a position j >= i ends
      up holding the merge of its base value with its override. */
  lemma {:induction false} MergeFromOverridden(base: Entries, overrides: Value, i: nat, j: nat)
    requires overrides.Arr? && Distinct(overrides.entries)
    requires i <= j < |overrides.entries|
    ensures Get(MergeFrom(base, overrides, i), overrides.entries[j].0)
      == MergeValue(Get(base, overrides.entries[j].0), overrides.entries[j].1)
    decreases |overrides.entries| - i
  {
    var key := overrides.entries[i].0;
    var next := Put(base, key, MergeValue(Get(base, key), overrides.entries[i].1));
    assert MergeFrom(base, overrides, i) == MergeFrom(next, overrides, i + 1);
    PutGet(base, key, MergeValue(Get(base, key), overrides.entries[i].1), overrides.entries[j].0);
    if i == j {
      MergeFromKeepsUntouched(next, overrides, i + 1, key);
    } else {
      MergeFromOverridden(next, overrides, i + 1, j);
    }
  }

  /** deep_merge: every override key is in the result, base keys keep their
      place and new keys come after them; at an overridden key the override
      wins unless both sides hold arrays, in which case the arrays are merged;
      a key the overrides do not mention keeps its base value; merging with
      no overrides returns base unchanged. */
  lemma MergedSpec(base: Entries, overrides: Entries)
    requires Distinct(overrides)
    ensures var r := Merged(base, overrides);
      && KeySet(r) == KeySet(base) + KeySet(overrides)
      && KeyPrefix(base, r)
      && (Distinct(base) ==> Distinct(r))
      && (forall k :: k !in KeySet(overrides) ==> Get(r, k) == Get(base, k))
      && (forall k :: k in KeySet(overrides) && !(Get(base, k).Arr? && Get(overrides, k).Arr?) ==>
            Get(r, k) == Get(overrides, k))
      && (forall k :: k in KeySet(overrides) && Get(base, k).Arr? && Get(overrides, k).Arr? ==>
            Get(r, k) == Arr(Merged(Get(base, k).entries, Get(overrides, k).entries)))
      && (overrides == [] ==> r == base)
  {
    var ov := Arr(overrides);
    MergeFromKeys(base, ov, 0);
    assert overrides[0..] == overrides;
    forall k | k !in KeySet(overrides) ensures Get(Merged(base, overrides), k) == Get(base, k) {
      MergeFromKeepsUntouched(base, ov, 0, k);
    }
    forall k | k in KeySet(overrides)
      ensures Get(Merged(base, overrides), k) == MergeValue(Get(base, k), Get(overrides, k))
    {
      var j := IndexOf(overrides, k);
      GetIndexOf(overrides, k);
      MergeFromOverridden(base, ov, 0, j);
    }
  }

  /** An override key whose value is not an array simply replaces the base entry. */
  lemma MergedScalarOverride(base: Entries, overrides: Entries, k: string)
    requires Distinct(overrides) && k in KeySet(overrides) && !Get(overrides, k).Arr?
    ensures Get(Merged(base, overrides), k) == Get(overrides, k)
  {
    GetIndexOf(overrides, k);
    MergeFromOverridden(base, Arr(overrides), 0, IndexOf(overrides, k));
  }

  /** The recursion keeps nested base entries: inside a key where both sides
      hold arrays, a nested key the override does not mention keeps its base value. */
  lemma MergedKeepsNested(base: Entries, overrides: Entries, k: string, nested: string)
    requires Distinct(overrides)
    requires Get(base, k).Arr? && Get(overrides, k).Arr?
    requires nested !in KeySet(Get(overrides, k).entries)
    ensures Get(Merged(base, overrides), k).Arr?
    ensures Get(Get(Merged(base, overrides), k).entries, nested) == Get(Get(base, k).entries, nested)
  {
    GetMissing(overrides, k);
    MergedSpec(base, overrides);
    var inner := Get(overrides, k).entries;
    MergeFromKeepsUntouched(Get(base, k).entries, Arr(inner), 0, nested);
  }

  // ---------------------------------------------------------------------------
  // get_options

  /** get_options before normalisation: saved options merged over the
      defaults when they are an array, the defaults otherwise. */
  function MergedOptions(saved: Value): Entries
  {
    if saved.Arr? then Merged(Defaults(), saved.entries) else Defaults()
  }

  /** active_library after get_options: kept when it is one of
      locomotive/gsap/lenis, lenis otherwise (scrollbar and native included). */
  function ResolvedLibrary(v: Value): (r: Value)
    ensures r.Str? && r.s in ResolvableLibraries
    ensures r == v <==> StrictlyIn(v, ResolvableLibraries)
    ensures !StrictlyIn(v, ResolvableLibraries) ==> r == Str("lenis")
  {
    if StrictlyIn(v, ResolvableLibraries) then v else Str("lenis")
  }

  /** anchor_offset after get_options: an int, the truncation of a numeric
      value and the default 0 for anything else. */
  function ResolvedOffset(v: Value): (r: Value)
    ensures r.Int?
    ensures IsNumeric(v) ==> r.i == IntCast(v)
    ensures !IsNumeric(v) ==> r.i == 0
    ensures v.Float? ==> Numerals.Truncate(v.f) == r.i
  {
    DefaultScalars();
    Int(if IsNumeric(v) then IntCast(v) else IntCast(Get(Defaults(), OffsetKey)))
  }

  /** enable_mobile after get_options: 1 for a non-empty value, 0 otherwise. */
  function ResolvedMobile(v: Value): (r: Value)
    ensures r in {Int(0), Int(1)}
    ensures r == Int(1) <==> !Empty(v)
  {
    Int(if !Empty(v) then 1 else 0)
  }

  /** script_location after get_options: header or footer, the default
      footer for anything else. */
  function ResolvedLocation(v: Value): (r: Value)
    ensures r.Str? && r.s in ScriptLocations
    ensures r == v <==> StrictlyIn(v, ScriptLocations)
    ensures !StrictlyIn(v, ScriptLocations) ==> r == Str("footer")
  {
    DefaultScalars();
    if StrictlyIn(v, ScriptLocations) then v else Get(Defaults(), LocationKey)
  }

  /** get_options with the oss_options filter taken as the identity: the four
      top-level fields are overwritten in turn. */
  function ResolvedOptions(saved: Value): Entries
  {
    Normalised(MergedOptions(saved))
  }

  /** get_options as the source writes it: merge, then overwrite the four fields in turn. */
  method GetOptions(saved: Value) returns (options: Entries)
    ensures options == ResolvedOptions(saved)
  {
    var defaults := Defaults();
    if saved.Arr? {
      options := DeepMerge(defaults, saved.entries);
    } else {
      options := defaults;
    }
    options := Put(options, LibraryKey, ResolvedLibrary(Get(options, LibraryKey)));
    options := Put(options, OffsetKey, ResolvedOffset(Get(options, OffsetKey)));
    options := Put(options, MobileKey, ResolvedMobile(Get(options, MobileKey)));
    options := Put(options, LocationKey, ResolvedLocation(Get(options, LocationKey)));
  }

  /** What get_options guarantees: a non-array saved value yields the
      defaults before normalisation; the keys are those of the merged
      options, each of the four top-level fields holds its normalised merged
      value (see ResolvedLibrary, ResolvedOffset, ResolvedMobile,
      ResolvedLocation), and every other entry is the merged one. */
  lemma ResolvedOptionsFields(saved: Value)
    ensures !saved.Arr? ==> MergedOptions(saved) == Defaults()
    ensures var m := MergedOptions(saved); var r := ResolvedOptions(saved);
      && Keys(r) == Keys(m)
      && (forall k :: k != LibraryKey && k != OffsetKey && k != MobileKey && k != LocationKey ==> Get(r, k) == Get(m, k))
      && Get(r, LibraryKey) == ResolvedLibrary(Get(m, LibraryKey))
      && Get(r, OffsetKey) == ResolvedOffset(Get(m, OffsetKey))
      && Get(r, MobileKey) == ResolvedMobile(Get(m, MobileKey))
      && Get(r, LocationKey) == ResolvedLocation(Get(m, LocationKey))
  {
    DefaultKeysInMerged(saved);
    NormaliseKeys(MergedOptions(saved));
    NormaliseGets(MergedOptions(saved));
  }

  /** The normalisation step of get_options on any array holding the four keys. */
  function Normalised(m: Entries): Entries
  {
    var o1 := Put(m, LibraryKey, ResolvedLibrary(Get(m, LibraryKey)));
    var o2 := Put(o1, OffsetKey, ResolvedOffset(Get(o1, OffsetKey)));
    var o3 := Put(o2, MobileKey, ResolvedMobile(Get(o2, MobileKey)));
    Put(o3, LocationKey, ResolvedLocation(Get(o3, LocationKey)))
  }

  lemma NormaliseKeys(m: Entries)
    requires LibraryKey in KeySet(m) && OffsetKey in KeySet(m) && MobileKey in KeySet(m) && LocationKey in KeySet(m)
    ensures Keys(Normalised(m)) == Keys(m)
  {
    var o1 := Put(m, LibraryKey, ResolvedLibrary(Get(m, LibraryKey)));
    var o2 := Put(o1, OffsetKey, ResolvedOffset(Get(o1, OffsetKey)));
    var o3 := Put(o2, MobileKey, ResolvedMobile(Get(o2, MobileKey)));
    PutKeySet(m, LibraryKey, ResolvedLibrary(Get(m, LibraryKey)));
    PutKeySet(o1, OffsetKey, ResolvedOffset(Get(o1, OffsetKey)));
    PutKeySet(o2, MobileKey, ResolvedMobile(Get(o2, MobileKey)));
    PutKeys(m, LibraryKey, ResolvedLibrary(Get(m, LibraryKey)));
    PutKeys(o1, OffsetKey, ResolvedOffset(Get(o1, OffsetKey)));
    PutKeys(o2, MobileKey, ResolvedMobile(Get(o2, MobileKey)));
    PutKeys(o3, LocationKey, ResolvedLocation(Get(o3, LocationKey)));
  }

  lemma NormaliseGets(m: Entries)
    ensures var r := Normalised(m);
      && (forall k :: k != LibraryKey && k != OffsetKey && k != MobileKey && k != LocationKey ==> Get(r, k) == Get(m, k))
      && Get(r, LibraryKey) == ResolvedLibrary(Get(m, LibraryKey))
      && Get(r, OffsetKey) == ResolvedOffset(Get(m, OffsetKey))
      && Get(r, MobileKey) == ResolvedMobile(Get(m, MobileKey))
      && Get(r, LocationKey) == ResolvedLocation(Get(m, LocationKey))
  {
    var o1 := Put(m, LibraryKey, ResolvedLibrary(Get(m, LibraryKey)));
    var o2 := Put(o1, OffsetKey, ResolvedOffset(Get(o1, OffsetKey)));
    var o3 := Put(o2, MobileKey, ResolvedMobile(Get(o2, MobileKey)));
    FourPuts(m, LibraryKey, OffsetKey, MobileKey, LocationKey, ResolvedLibrary(Get(m, LibraryKey)),
      ResolvedOffset(Get(o1, OffsetKey)), ResolvedMobile(Get(o2, MobileKey)), ResolvedLocation(Get(o3, LocationKey)));
  }

  /** Four assignments to distinct keys: each key reads its own value, and
      every other key reads as before. */
  lemma FourPuts(m: Entries, k1: string, k2: string, k3: string, k4: string, v1: Value, v2: Value, v3: Value, v4: Value)
    requires k1 != k2 && k1 != k3 && k1 != k4 && k2 != k3 && k2 != k4 && k3 != k4
    ensures var o1 := Put(m, k1, v1); var o2 := Put(o1, k2, v2); var o3 := Put(o2, k3, v3); var r := Put(o3, k4, v4);
      && Get(o1, k2) == Get(m, k2) && Get(o2, k3) == Get(m, k3) && Get(o3, k4) == Get(m, k4)
      && Get(r, k1) == v1 && Get(r, k2) == v2 && Get(r, k3) == v3 && Get(r, k4) == v4
      && (forall k :: k != k1 && k != k2 && k != k3 && k != k4 ==> Get(r, k) == Get(m, k))
  {
    var o1 := Put(m, k1, v1); var o2 := Put(o1, k2, v2); var o3 := Put(o2, k3, v3);
    forall k ensures Get(Put(o3, k4, v4), k) == if k == k4 then v4 else if k == k3 then v3 else if k == k2 then v2 else if k == k1 then v1 else Get(m, k) {
      PutGet(m, k1, v1, k); PutGet(o1, k2, v2, k); PutGet(o2, k3, v3, k); PutGet(o3, k4, v4, k);
    }
    PutGet(m, k1, v1, k2); PutGet(m, k1, v1, k3); PutGet(m, k1, v1, k4);
    PutGet(o1, k2, v2, k3); PutGet(o1, k2, v2, k4); PutGet(o2, k3, v3, k4);
  }

  /** The four normalised fields are keys of the merged options. */
  lemma DefaultKeysInMerged(saved: Value)
    ensures var m := MergedOptions(saved);
      LibraryKey in KeySet(m) && OffsetKey in KeySet(m) && MobileKey in KeySet(m) && LocationKey in KeySet(m)
    ensures !saved.Arr? ==> MergedOptions(saved) == Defaults()
  {
    DefaultScalars();
    if saved.Arr? {
      MergedKeysIncludeDefaults(saved.entries);
    }
  }

  /** Merging saved options keeps the default keys first. */
  lemma MergedKeysIncludeDefaults(saved: Entries)
    ensures KeySet(Defaults()) <= KeySet(Merged(Defaults(), saved))
  {
    MergeFromKeys(Defaults(), Arr(saved), 0);
  }

  /** get_active_library with the oss_active_library filter taken as the identity. */
  function ActiveLibrary(saved: Value): (library: string)
    ensures library in ResolvableLibraries
    ensures StrictlyIn(Get(MergedOptions(saved), LibraryKey), ResolvableLibraries) ==>
      library == Get(MergedOptions(saved), LibraryKey).s
    ensures !StrictlyIn(Get(MergedOptions(saved), LibraryKey), ResolvableLibraries) ==> library == "lenis"
  {
    ResolvedOptionsFields(saved);
    var active := Get(ResolvedOptions(saved), LibraryKey);
    // The `?? 'lenis'` fallback of the source: get_options always sets the key.
    if active.Str? then active.s else "lenis"
  }

  /** get_active_library on saved options with a string library: the saved
      library when get_options lets it through, lenis otherwise. */
  lemma ActiveLibraryOfSaved(saved: Entries)
    requires Distinct(saved) && Get(saved, LibraryKey).Str?
    ensures var library := Get(saved, LibraryKey).s;
      ActiveLibrary(Arr(saved)) == if library in ResolvableLibraries then library else "lenis"
  {
    GetMissing(saved, LibraryKey);
    MergedScalarOverride(Defaults(), saved, LibraryKey);
  }

  // ---------------------------------------------------------------------------
  // Plugin::init, the one-time bootstrap

  class PluginInstance { constructor () { } }
  class AdminModule { constructor () { } }
  class FrontendModule { constructor () { } }

  /** The static fields of Plugin. */
  class PluginStatics {
    var instance: PluginInstance?
    var admin: AdminModule?
    var frontend: FrontendModule?
    /** How many times the modules have been instantiated. */
    ghost var creations: nat

    ghost predicate Valid()
      reads this
    {
      && (instance == null ==> admin == null && frontend == null && creations == 0)
      && (instance != null ==> admin != null && frontend != null && creations == 1)
    }

    constructor ()
      ensures Valid() && instance == null
    {
      instance, admin, frontend := null, null, null;
      creations := 0;
    }

    /** Plugin::init: the first call creates the instance and both modules;
        every later call returns at once, so they are created exactly once. */
    method Init()
      requires Valid()
      modifies this
      ensures Valid() && instance != null && creations == 1
      ensures old(instance) != null ==>
        instance == old(instance) && admin == old(admin) && frontend == old(frontend)
      ensures old(instance) == null ==> fresh(instance) && fresh(admin) && fresh(frontend)
    {
      if instance != null {
        return;
      }
      instance := new PluginInstance();
      admin := new AdminModule();
      frontend := new FrontendModule();
      creations := creations + 1;
    }
  }
}

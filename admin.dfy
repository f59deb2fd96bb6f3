/** The settings validator of includes/class-oss-admin.php: sanitize_options
    and the option maps the settings page offers. */
module Admin {
  import opened Numerals
  import opened PhpValues
  import opened Plugin

  const SpeedKey := "scroll_speed"
  const EasingKey := "easing"

  /** The values sanitize_options accepts. */
  const AllowedLibraries: seq<string> := ["locomotive", "lenis", "scrollbar", "native"]
  const AllowedEasing: seq<string> := ["ease", "linear", "ease-in", "ease-out", "cubic-bezier"]
  const AllowedLocations: seq<string> := ["header", "footer"]

  /** get_allowed_libraries: value => label, labels untranslated. */
  function LibraryChoices(): seq<(string, string)>
  {
    [("locomotive", "Locomotive Scroll"), ("lenis", "Lenis"), ("scrollbar", "Smooth Scrollbar"), ("native", "Native CSS")]
  }

  /** get_allowed_easing_options. */
  function EasingChoices(): seq<(string, string)>
  {
    [("ease", "ease"), ("linear", "linear"), ("ease-in", "ease-in"), ("ease-out", "ease-out"), ("cubic-bezier", "cubic-bezier")]
  }

  /** get_script_locations. */
  function LocationChoices(): seq<(string, string)>
  {
    [("header", "Header"), ("footer", "Footer")]
  }

  /** The settings page offers exactly the values the validator accepts, in
      the same order, for the library, the easing and the script location. */
  lemma ChoicesMatchValidator()
    ensures Keys(LibraryChoices()) == AllowedLibraries
    ensures Keys(EasingChoices()) == AllowedEasing
    ensures Keys(LocationChoices()) == AllowedLocations
  {
  }

  /** sanitize_text_field, taken as the identity on strings; any other value
      becomes the empty string. */
  function CleanText(v: Value): (r: Value)
    ensures r.Str?
    ensures v.Str? ==> r == v
    ensures !v.Str? ==> r == Str("")
  {
    if v.Str? then v else Str("")
  }

  /** An add_settings_error record. */
  datatype SettingsError = SettingsError(setting: string, code: string, message: string, kind: string)

  const LibraryError := SettingsError("oss_options", "oss_active_library", "Invalid library selected. Reverted to default.", "error")
  const EasingError := SettingsError("oss_options", "oss_easing", "Invalid easing selected. Reverted to default.", "error")

  /** The submitted fields: a non-array submission counts as the empty array. */
  function InputFields(input: Value): (fields: Entries)
    ensures input.Arr? ==> fields == input.entries
    ensures !input.Arr? ==> fields == []
  {
    if input.Arr? then input.entries else []
  }

  /** The submitted text field, cleaned, or the default when it is not set. */
  function TextOrDefault(fields: Entries, key: string, defaults: Entries): Value
  {
    if IsSet(fields, key) then CleanText(Get(fields, key)) else Get(defaults, key)
  }

  /** A text choice: the cleaned submitted value, or the default when it is
      not set; kept when it is one of the allowed values, replaced by the
      default otherwise. */
  function Chosen(fields: Entries, key: string, allowed: seq<string>, defaults: Entries): Value
  {
    var text := TextOrDefault(fields, key, defaults);
    if StrictlyIn(text, allowed) then text else Get(defaults, key)
  }

  function SanitizedSpeed(fields: Entries, defaults: Entries): Value
  {
    var fallback := FloatCast(Get(defaults, SpeedKey));
    var speed := if IsSet(fields, SpeedKey) then FloatCast(Get(fields, SpeedKey)) else fallback;
    Float(if speed < 0.0 then fallback else speed)
  }

  function SanitizedOffset(fields: Entries, defaults: Entries): Value
  {
    Int(IntCast(if IsSet(fields, OffsetKey) then Get(fields, OffsetKey) else Get(defaults, OffsetKey)))
  }

  function SanitizedMobile(fields: Entries): Value
  {
    Int(if !Empty(Get(fields, MobileKey)) then 1 else 0)
  }

  /** The array sanitize_options returns for a user who may manage options. */
  function SanitizedFields(fields: Entries, defaults: Entries): Entries
  {
    [ (LibraryKey, Chosen(fields, LibraryKey, AllowedLibraries, defaults)),
      (SpeedKey, SanitizedSpeed(fields, defaults)),
      (EasingKey, Chosen(fields, EasingKey, AllowedEasing, defaults)),
      (OffsetKey, SanitizedOffset(fields, defaults)),
      (MobileKey, SanitizedMobile(fields)),
      (LocationKey, Chosen(fields, LocationKey, AllowedLocations, defaults)) ]
  }

  /** The settings errors sanitize_options records, in order. */
  function SanitizeErrors(fields: Entries, defaults: Entries): seq<SettingsError>
  {
    (if StrictlyIn(TextOrDefault(fields, LibraryKey, defaults), AllowedLibraries) then [] else [LibraryError])
    + (if StrictlyIn(TextOrDefault(fields, EasingKey, defaults), AllowedEasing) then [] else [EasingError])
  }

  /** One text choice as the source writes it: read the field or the
      default, clean it, and revert to the default when it is not allowed;
      accepted tells whether the read value was kept. */
  method ChooseText(fields: Entries, key: string, allowed: seq<string>, defaults: Entries)
    returns (value: Value, accepted: bool)
    ensures accepted <==> StrictlyIn(TextOrDefault(fields, key, defaults), allowed)
    ensures accepted ==> value == TextOrDefault(fields, key, defaults)
    ensures !accepted ==> value == Get(defaults, key)
    ensures StrictlyIn(value, allowed) || value == Get(defaults, key)
  {
    value := if IsSet(fields, key) then CleanText(Get(fields, key)) else Get(defaults, key);
    accepted := StrictlyIn(value, allowed);
    if !accepted {
      value := Get(defaults, key);
    }
  }

  /** The scroll speed step: the float cast of the field or of the default,
      and the default again when the cast is negative. */
  method ReadSpeed(fields: Entries, defaults: Entries) returns (speed: real)
    ensures speed >= 0.0 || speed == FloatCast(Get(defaults, SpeedKey))
    ensures IsSet(fields, SpeedKey) && FloatCast(Get(fields, SpeedKey)) >= 0.0 ==>
      speed == FloatCast(Get(fields, SpeedKey))
    ensures IsSet(fields, SpeedKey) && FloatCast(Get(fields, SpeedKey)) < 0.0 ==>
      speed == FloatCast(Get(defaults, SpeedKey))
    ensures !IsSet(fields, SpeedKey) ==> speed == FloatCast(Get(defaults, SpeedKey))
  {
    speed := if IsSet(fields, SpeedKey) then FloatCast(Get(fields, SpeedKey)) else FloatCast(Get(defaults, SpeedKey));
    if speed < 0.0 {
      speed := FloatCast(Get(defaults, SpeedKey));
    }
  }

  /** The anchor offset step: the int cast of the field or of the default,
      which truncates its float reading toward zero. */
  method ReadOffset(fields: Entries, defaults: Entries) returns (offset: int)
    ensures IsSet(fields, OffsetKey) ==> offset == Truncate(FloatCast(Get(fields, OffsetKey)))
    ensures !IsSet(fields, OffsetKey) ==> offset == Truncate(FloatCast(Get(defaults, OffsetKey)))
  {
    offset := IntCast(if IsSet(fields, OffsetKey) then Get(fields, OffsetKey) else Get(defaults, OffsetKey));
    IntCastTruncatesFloatCast(if IsSet(fields, OffsetKey) then Get(fields, OffsetKey) else Get(defaults, OffsetKey));
  }

  /** The enable_mobile step: 1 when the field is non-empty, 0 otherwise. */
  method ReadMobile(fields: Entries) returns (enabled: int)
    ensures enabled == 0 || enabled == 1
    ensures enabled == 1 <==> !Empty(Get(fields, MobileKey))
    ensures !IsSet(fields, MobileKey) ==> enabled == 0
  {
    enabled := if !Empty(Get(fields, MobileKey)) then 1 else 0;
  }

  /** sanitize_options as the source writes it: a user without manage_options
      gets the stored options back and the input is ignored; otherwise each
      field is validated in turn against the default map (get_default_options,
      passed in as defaults because its oss_default_options filter may
      change it; the lemmas use Plugin.Defaults()), and the
      invalid library and easing choices are logged as settings errors in
      that order. Every key is new to the fresh array, so the source's six
      assignments append the six values in the order they were computed.
      The nonce check is not part of this model. */
  method SanitizeOptions(input: Value, canManage: bool, stored: Value, defaults: Entries)
    returns (sanitized: Entries, errors: seq<SettingsError>)
    ensures !canManage ==> sanitized == ResolvedOptions(stored) && errors == []
    ensures canManage ==> sanitized == SanitizedFields(InputFields(input), defaults)
    ensures canManage ==> errors == SanitizeErrors(InputFields(input), defaults)
  {
    var fields := InputFields(input);
    if !canManage {
      sanitized := GetOptions(stored);
      errors := [];
      return;
    }
    errors := [];

    var activeLibrary, libraryValid := ChooseText(fields, LibraryKey, AllowedLibraries, defaults);
    assert activeLibrary == Chosen(fields, LibraryKey, AllowedLibraries, defaults);
    if !libraryValid {
      errors := errors + [LibraryError];
    }
    var scrollSpeed := ReadSpeed(fields, defaults);
    assert Float(scrollSpeed) == SanitizedSpeed(fields, defaults);
    var easing, easingValid := ChooseText(fields, EasingKey, AllowedEasing, defaults);
    assert easing == Chosen(fields, EasingKey, AllowedEasing, defaults);
    if !easingValid {
      errors := errors + [EasingError];
    }
    assert errors == (if libraryValid then [] else [LibraryError]) + (if easingValid then [] else [EasingError]);
    var anchorOffset := ReadOffset(fields, defaults);
    IntCastTruncatesFloatCast(if IsSet(fields, OffsetKey) then Get(fields, OffsetKey) else Get(defaults, OffsetKey));
    assert Int(anchorOffset) == SanitizedOffset(fields, defaults);
    var enableMobile := ReadMobile(fields);
    assert Int(enableMobile) == SanitizedMobile(fields);
    var scriptLocation, _ := ChooseText(fields, LocationKey, AllowedLocations, defaults);
    assert scriptLocation == Chosen(fields, LocationKey, AllowedLocations, defaults);

    sanitized := [
      (LibraryKey, activeLibrary),
      (SpeedKey, Float(scrollSpeed)),
      (EasingKey, easing),
      (OffsetKey, Int(anchorOffset)),
      (MobileKey, Int(enableMobile)),
      (LocationKey, scriptLocation)];
  }

  // ---------------------------------------------------------------------------
  // What sanitize_options guarantees

  const SanitizedKeyList: seq<string> := [LibraryKey, SpeedKey, EasingKey, OffsetKey, MobileKey, LocationKey]

  /** The result holds exactly the six keys it sets, each once, in the order
      they are set; every other key (the per-library blocks, anything else
      submitted) reads as null. */
  lemma SanitizedLayout(fields: Entries, defaults: Entries)
    ensures var r := SanitizedFields(fields, defaults);
      && |r| == |SanitizedKeyList| && (forall i :: 0 <= i < |r| ==> r[i].0 == SanitizedKeyList[i])
      && Distinct(r)
      && Get(r, LibraryKey) == Chosen(fields, LibraryKey, AllowedLibraries, defaults)
      && Get(r, SpeedKey) == SanitizedSpeed(fields, defaults)
      && Get(r, EasingKey) == Chosen(fields, EasingKey, AllowedEasing, defaults)
      && Get(r, OffsetKey) == SanitizedOffset(fields, defaults)
      && Get(r, MobileKey) == SanitizedMobile(fields)
      && Get(r, LocationKey) == Chosen(fields, LocationKey, AllowedLocations, defaults)
      && (forall k :: k !in SanitizedKeyList ==> Get(r, k) == Null)
  {
    SixFields(Chosen(fields, LibraryKey, AllowedLibraries, defaults), SanitizedSpeed(fields, defaults),
      Chosen(fields, EasingKey, AllowedEasing, defaults), SanitizedOffset(fields, defaults),
      SanitizedMobile(fields), Chosen(fields, LocationKey, AllowedLocations, defaults));
  }

  lemma SixFields(a: Value, b: Value, c: Value, d: Value, e: Value, f: Value)
    ensures var r := [(LibraryKey, a), (SpeedKey, b), (EasingKey, c), (OffsetKey, d), (MobileKey, e), (LocationKey, f)];
      && |r| == |SanitizedKeyList| && (forall i :: 0 <= i < |r| ==> r[i].0 == SanitizedKeyList[i])
      && Distinct(r)
      && Get(r, LibraryKey) == a && Get(r, SpeedKey) == b && Get(r, EasingKey) == c
      && Get(r, OffsetKey) == d && Get(r, MobileKey) == e && Get(r, LocationKey) == f
      && (forall k :: k !in SanitizedKeyList ==> Get(r, k) == Null)
  {
    SixKeys(a, b, c, d, e, f);
    SixValues(a, b, c, d, e, f);
  }

  lemma SixKeys(a: Value, b: Value, c: Value, d: Value, e: Value, f: Value)
    ensures var r := [(LibraryKey, a), (SpeedKey, b), (EasingKey, c), (OffsetKey, d), (MobileKey, e), (LocationKey, f)];
      && |r| == |SanitizedKeyList| && (forall i :: 0 <= i < |r| ==> r[i].0 == SanitizedKeyList[i])
      && Distinct(r)
      && (forall k :: k !in SanitizedKeyList ==> Get(r, k) == Null)
  {
    var r := [(LibraryKey, a), (SpeedKey, b), (EasingKey, c), (OffsetKey, d), (MobileKey, e), (LocationKey, f)];
    forall k | k !in SanitizedKeyList ensures Get(r, k) == Null {
      assert k !in KeySet(r);
      GetMissing(r, k);
    }
  }

  lemma SixValues(a: Value, b: Value, c: Value, d: Value, e: Value, f: Value)
    ensures var r := [(LibraryKey, a), (SpeedKey, b), (EasingKey, c), (OffsetKey, d), (MobileKey, e), (LocationKey, f)];
      && Get(r, LibraryKey) == a && Get(r, SpeedKey) == b && Get(r, EasingKey) == c
      && Get(r, OffsetKey) == d && Get(r, MobileKey) == e && Get(r, LocationKey) == f
  {
    var r := [(LibraryKey, a), (SpeedKey, b), (EasingKey, c), (OffsetKey, d), (MobileKey, e), (LocationKey, f)];
    assert Distinct(r);
    GetDistinct(r, 0); GetDistinct(r, 1); GetDistinct(r, 2); GetDistinct(r, 3); GetDistinct(r, 4); GetDistinct(r, 5);
  }

  /** active_library is always one of the four admin choices. An allowed
      submission is kept; anything else becomes the default lenis and records
      exactly one library error; a missing field reads the default and
      records none. */
  lemma LibraryValidated(fields: Entries)
    ensures var text := TextOrDefault(fields, LibraryKey, Defaults());
      var r := Chosen(fields, LibraryKey, AllowedLibraries, Defaults());
      var errors := SanitizeErrors(fields, Defaults());
      && r.Str? && r.s in AllowedLibraries
      && (StrictlyIn(text, AllowedLibraries) ==> r == text && LibraryError !in errors)
      && (!StrictlyIn(text, AllowedLibraries) ==> r == Str("lenis") && multiset(errors)[LibraryError] == 1)
      && (!IsSet(fields, LibraryKey) ==> r == Str("lenis") && LibraryError !in errors)
  {
    DefaultScalars();
  }

  /** scroll_speed is never negative. A set, non-negative float cast is kept;
      a missing or negative one becomes the float cast of the default, which
      is missing from the default map, so 0.0. */
  lemma SpeedNonNegative(fields: Entries)
    ensures var r := SanitizedSpeed(fields, Defaults());
      && r.Float? && r.f >= 0.0
      && (IsSet(fields, SpeedKey) && FloatCast(Get(fields, SpeedKey)) >= 0.0 ==> r.f == FloatCast(Get(fields, SpeedKey)))
      && (!IsSet(fields, SpeedKey) || FloatCast(Get(fields, SpeedKey)) < 0.0 ==> r.f == 0.0)
  {
    DefaultsShape();
  }

  /** An allowed easing is kept and records no error. Any other easing, and
      a missing one, becomes the default, which is missing from the default
      map, so null, and records exactly one easing error. */
  lemma EasingValidated(fields: Entries)
    ensures var text := TextOrDefault(fields, EasingKey, Defaults());
      var r := Chosen(fields, EasingKey, AllowedEasing, Defaults());
      var errors := SanitizeErrors(fields, Defaults());
      && (StrictlyIn(text, AllowedEasing) ==> r == text && EasingError !in errors)
      && (!StrictlyIn(text, AllowedEasing) ==> r == Null && multiset(errors)[EasingError] == 1)
      && (!IsSet(fields, EasingKey) ==> r == Null && EasingError in errors)
  {
    DefaultsShape();
  }

  /** anchor_offset is the int cast of the submission, 0 when missing, with
      no clamping; enable_mobile is 1 exactly when the submission is not empty. */
  lemma OffsetAndMobile(fields: Entries)
    ensures SanitizedOffset(fields, Defaults()) == Int(if IsSet(fields, OffsetKey) then IntCast(Get(fields, OffsetKey)) else 0)
    ensures SanitizedMobile(fields) in {Int(0), Int(1)}
    ensures SanitizedMobile(fields) == Int(1) <==> !Empty(Get(fields, MobileKey))
  {
    DefaultScalars();
  }

  /** A negative offset survives sanitizing unchanged. */
  lemma NegativeOffsetKept(n: int)
    requires n < 0
    ensures SanitizedOffset([(OffsetKey, Int(n))], Defaults()) == Int(n)
  {
    GetAt([(OffsetKey, Int(n))], 0);
  }

  /** script_location is header or footer; an invalid value silently becomes
      the default footer (and no error names it, see ErrorsOnlyLibraryAndEasing). */
  lemma LocationValidated(fields: Entries)
    ensures var text := TextOrDefault(fields, LocationKey, Defaults());
      var r := Chosen(fields, LocationKey, AllowedLocations, Defaults());
      && r.Str? && r.s in AllowedLocations
      && (StrictlyIn(text, AllowedLocations) ==> r == text)
      && (!StrictlyIn(text, AllowedLocations) ==> r == Str("footer"))
  {
    DefaultScalars();
  }

  /** The only errors are the library and easing errors, at most one each. */
  lemma ErrorsOnlyLibraryAndEasing(fields: Entries, defaults: Entries)
    ensures forall e :: e in SanitizeErrors(fields, defaults) ==> e == LibraryError || e == EasingError
    ensures |SanitizeErrors(fields, defaults)| <= 2
  {
  }

  /** What the admin saves and what the options layer makes of it: the
      validator accepts scrollbar and native, but get_active_library on the
      saved array turns them into lenis; locomotive and lenis pass through. */
  /** The admin list offers "scrollbar" and "native", which the options
      layer does not resolve: they fall back to Lenis. */
  lemma AdminOnlyLibraries()
    ensures "scrollbar" !in ResolvableLibraries && "native" !in ResolvableLibraries
    ensures "locomotive" in ResolvableLibraries && "lenis" in ResolvableLibraries
  {
  }

  /** What the front end runs for a library the admin screen accepted. */
  lemma AcceptedLibraryResolution(saved: Entries)
    requires Distinct(saved) && StrictlyIn(Get(saved, LibraryKey), AllowedLibraries)
    ensures var chosen := Get(saved, LibraryKey).s;
      && (chosen in ["locomotive", "lenis"] ==> ActiveLibrary(Arr(saved)) == chosen)
      && (chosen in ["scrollbar", "native"] ==> ActiveLibrary(Arr(saved)) == "lenis")
  {
    ActiveLibraryOfSaved(saved);
    AdminOnlyLibraries();
  }

  /** Saving through the sanitizer and reading back: "scrollbar" and "native"
      are accepted and stored, yet the active library becomes Lenis. */
  lemma SavedLibraryResolution(fields: Entries)
    ensures var chosen := Chosen(fields, LibraryKey, AllowedLibraries, Defaults());
      var active := ActiveLibrary(Arr(SanitizedFields(fields, Defaults())));
      && chosen.Str?
      && (chosen.s in ["locomotive", "lenis"] ==> active == chosen.s)
      && (chosen.s in ["scrollbar", "native"] ==> active == "lenis")
  {
    var saved := SanitizedFields(fields, Defaults());
    LibraryValidated(fields);
    SanitizedLayout(fields, Defaults());
    AcceptedLibraryResolution(saved);
  }
}

# Onward Smooth Scrolling, modelled in Dafny

Onward Smooth Scrolling is a WordPress plugin. It adds smooth scrolling and
offset-aware anchor scrolling to a site. The model covers both halves of it.

The PHP half:

- `Plugin` (`class-oss-plugin.php`): the default options, the recursive
  merge of saved options over the defaults, the normalisation of the four
  top-level settings, the active-library lookup and the one-time bootstrap.
- `Admin` (`class-oss-admin.php`): the settings sanitizer, with its allowed
  lists, fallbacks and settings-error log.
- `Frontend` (`class-oss-frontend.php`): the asset plan of a page view. It
  covers the mobile skip, header or footer loading, the library stylesheet,
  the vendor scripts, the wrapper script, the initializer and the payload
  handed to the page as `window.ossSettings`.

The JavaScript half:

- `Orchestrator` (`assets/js/oss-init.js`): picks the wrapper API or the
  built-in fallback, calls the wrapper's init, binds the in-page anchor
  links, scrolls to the page's hash and dispatches `oss:initialized`.
- The five wrappers, each exposing `init(settings)` and
  `scrollTo(targetOrY, options)`:
  - `LenisWrapper`, `LocomotiveWrapper` and `ScrollbarWrapper`: classes that
    hold the library instance;
  - `GsapWrapper`: ScrollTrigger defaults, JSON-declared triggers and
    ScrollToPlugin scrolling;
  - `NativeWrapper`: CSS smooth scrolling.

Shared modules:

- `PhpValues`: PHP values and ordered arrays, `(int)`/`(float)` casts,
  `empty()`, `is_numeric()` and strict `in_array`.
- `Numerals`: PHP numeric-string prefixes.
- `JsValues`: JavaScript values, truthiness, `||`, `Number()` and property
  reads.
- `Scroll`: the offset option, the target position, the clamped top and the
  scroll commands all wrappers share.
- `Localize`: follows the PHP payload, as JSON, into the JavaScript that
  reads it.

How the model is built:

- WordPress and browser inputs are parameters. These are saved options,
  `current_user_can`, `wp_is_mobile`, `file_exists`, `JSON.parse`,
  `getElementById`, `decodeURIComponent`, `querySelector`, whether a
  library global exists and whether a library call throws.
- Operations that work step by step are methods, each proved against a
  specification function:
  - `DeepMerge`, `GetOptions` and `SanitizeOptions` in PHP;
  - the `Page` class of the orchestrator, with its loop over anchor links;
  - the GSAP trigger loop;
  - the wrapper classes, whose fields the source reassigns.

Where the code and the plugin's own description differ, the model follows
the code:

- An exception thrown by the wrapper's `init` is swallowed. The orchestrator
  keeps using the wrapper's API and does not switch to the fallback
  (`oss-init.js:56-60`).
- The orchestrator reads only `settings.anchorOffset` and `settings.easing`
  (`oss-init.js:39-41`). The wrappers read `settings.speed`
  (`lenis.js:24`, `locomotive.js:25`, `scrollbar.js:24`), and the Lenis
  wrapper also reads `settings.enableMobile` (`lenis.js:23`). All of these
  are read at the top level. The payload nests the offset under `general`
  and has no speed or easing at all. So every anchor scroll uses offset 0
  and the wrappers run on their defaults. `Localize` proves both.
- The hash scroll on load does not decode the id, has no fallback to the
  native scroll, and passes no easing.
- The sanitizer accepts `scrollbar` and `native`. `get_options` resolves
  both to `lenis`.

## Model

| member | source | states |
|---|---|---|
| PhpValues.PutGet | includes/class-oss-plugin.php:180-182 | `$a[$k] = $v`: reading `k` afterwards gives `v`, and every other key reads as before |
| PhpValues.PutKeys | includes/class-oss-plugin.php:180-182 | an assignment appends a new key at the end, or keeps the key order when the key exists |
| PhpValues.PutKeySet | includes/class-oss-plugin.php:180-182 | an assignment adds its key to the key set and no other |
| PhpValues.PutDistinct | includes/class-oss-plugin.php:180-182 | an assignment keeps the keys of an array distinct |
| PhpValues.PutPrefix | includes/class-oss-plugin.php:180-182 | an assignment moves no existing key |
| PhpValues.PutIndexOf | includes/class-oss-plugin.php:180-182 | an assignment overwrites the entry holding the key, or appends one when there is none |
| PhpValues.GetMissing | includes/class-oss-plugin.php:179 | reading a missing key gives null |
| PhpValues.GetAt | includes/class-oss-plugin.php:179 | reading a key gives the value of its first entry |
| PhpValues.IntCastTruncatesFloatCast | includes/class-oss-admin.php:107-120 | `(int)` of any value is `(float)` of it truncated toward zero |
| Numerals.TruncateRealPrefix | includes/class-oss-plugin.php:200 | the integer prefix of a numeric string equals the truncation of its decimal prefix |
| Numerals.TruncateBounds | includes/class-oss-plugin.php:200 | truncation toward zero lies within 1 of the value, on the zero side |
| JsValues.Or | assets/js/oss-init.js:10 | JavaScript's or of `a` and `b` is `a` when `a` is truthy and `b` otherwise |
| JsValues.NumberOr | assets/js/oss-init.js:39 | `Number(v)` or-ed with a fallback is the number when it is finite and non-zero, else the fallback |
| JsValues.MaxZero | assets/js/oss-init.js:23 | `Math.max(0, a)` is NaN for NaN, keeps a non-negative `a` and is 0 for a negative `a` |
| Scroll.ClampedTop | assets/js/oss-init.js:19-23 | the scroll top is NaN or at least 0, and equals `max(0, y - offset)` for finite values |
| Scroll.TargetAndOffsetDefaults | assets/js/oss-init.js:19-22 | a target that is not a number or element gives y 0; a missing numeric offset counts as 0; then the top is finite |
| Scroll.NativeScroll | assets/js/oss-init.js:18-24 | the fallback scroll is one smooth window scroll to the clamped top |
| Scroll.DocumentRoot.AddClass | assets/js/oss-init.js:16 | the root's class set gains the class and keeps every other one |
| Plugin.DefaultsShape | includes/class-oss-plugin.php:78-160 | the defaults have the seven top-level keys in order, distinct, and no `scroll_speed` or `easing` |
| Plugin.DefaultScalars | includes/class-oss-plugin.php:79-82 | the default library is lenis, the offset 0, mobile 1 and the location footer |
| Plugin.DeepMerge | includes/class-oss-plugin.php:177-186 | the merge loop computes the left fold `Merged`; after each iteration, folding the remaining overrides into the result gives the merge |
| Plugin.MergeStep | includes/class-oss-plugin.php:179-183 | one iteration stores the merged value of the next override, and folding the rest from there is the same fold |
| Plugin.MergeArrays | includes/class-oss-plugin.php:180-181 | where both sides hold arrays, the stored value is the recursive merge of the two |
| Plugin.MergeFromKeys | includes/class-oss-plugin.php:178-184 | a merge keeps the base keys first and in order, adds exactly the override keys, and keeps keys distinct |
| Plugin.MergeFromKeepsUntouched | includes/class-oss-plugin.php:178-184 | a key no remaining override names keeps its base value |
| Plugin.MergeFromOverridden | includes/class-oss-plugin.php:179-183 | an overridden key holds the merge of its base value and its override |
| Plugin.MergedSpec | includes/class-oss-plugin.php:177-186 | key set, key order and distinctness; untouched keys keep the base; scalar overrides win; two arrays merge recursively; no overrides gives the base |
| Plugin.MergedScalarOverride | includes/class-oss-plugin.php:181-183 | a non-array override replaces the base value outright |
| Plugin.MergedKeepsNested | includes/class-oss-plugin.php:179-180 | a nested default survives when the saved block omits its key |
| Plugin.ResolvedLibrary | includes/class-oss-plugin.php:199 | the library is one of locomotive, gsap, lenis; it is kept iff it is one of them (strictly), else lenis |
| Plugin.ResolvedOffset | includes/class-oss-plugin.php:200 | the offset is an int: the `(int)` cast of a numeric value, else 0 |
| Plugin.ResolvedMobile | includes/class-oss-plugin.php:201 | the mobile flag is 0 or 1, and 1 iff the value is not `empty()` |
| Plugin.ResolvedLocation | includes/class-oss-plugin.php:202 | the location is header or footer; it is kept iff it is one of them (strictly), else footer |
| Plugin.GetOptions | includes/class-oss-plugin.php:193-209 | the method's sequence of field assignments computes `ResolvedOptions` |
| Plugin.ResolvedOptionsFields | includes/class-oss-plugin.php:194-202 | non-array saved data gives the defaults; the key order is the merged one; the four fields are normalised and every other key is as merged |
| Plugin.NormaliseKeys | includes/class-oss-plugin.php:199-202 | normalising the four fields keeps the key order |
| Plugin.NormaliseGets | includes/class-oss-plugin.php:199-202 | each of the four fields is normalised and every other key is unchanged |
| Plugin.DefaultKeysInMerged | includes/class-oss-plugin.php:194-196 | the four normalised keys are always present after the merge |
| Plugin.MergedKeysIncludeDefaults | includes/class-oss-plugin.php:196 | every default key survives the merge |
| Plugin.ActiveLibrary | includes/class-oss-plugin.php:217-227 | the active library is the merged one when it is allowed, else lenis |
| Plugin.ActiveLibraryOfSaved | includes/class-oss-plugin.php:217-219 | for saved options with a string library: that library if get_options allows it, else lenis |
| Plugin.PluginStatics.constructor | includes/class-oss-plugin.php:29 | the instance starts out null and no modules exist |
| Plugin.PluginStatics.Init | includes/class-oss-plugin.php:50-60 | the first call creates the instance and both modules; later calls change nothing, so they are created exactly once |
| Admin.ChoicesMatchValidator | includes/class-oss-admin.php:290-324 | the values offered in the settings form are exactly the values the sanitizer accepts, in the same order |
| Admin.CleanText | includes/class-oss-admin.php:100 | text cleaning gives a string: the input string itself, or "" for a non-string |
| Admin.InputFields | includes/class-oss-admin.php:85-87 | a non-array input is treated as an empty array |
| Admin.ChooseText | includes/class-oss-admin.php:100-105 | the submitted or default text is accepted iff it is strictly in the allowed list and is then kept; otherwise the default replaces it; the result is always allowed or the default |
| Admin.ReadSpeed | includes/class-oss-admin.php:107-111 | a set field whose float cast is non-negative gives that cast; a negative cast or an unset field gives the default's float cast; the result is non-negative or the default |
| Admin.ReadOffset | includes/class-oss-admin.php:120-121 | the offset is the field's float reading truncated toward zero, or the default's when the field is not set |
| Admin.ReadMobile | includes/class-oss-admin.php:123-124 | the flag is 0 or 1, 1 exactly when the field is non-empty, so 0 when it is not set |
| Admin.SanitizeOptions | includes/class-oss-admin.php:78-133 | without the capability it returns the stored options and no errors; with it, it returns the six sanitized fields and the error log |
| Admin.SanitizedLayout | includes/class-oss-admin.php:94-132 | the result has exactly the six keys, in order, each holding its sanitized value |
| Admin.LibraryValidated | includes/class-oss-admin.php:100-105 | the library is one of the four allowed ones; an unknown one is reverted to lenis with exactly one error; an absent one gives lenis with no error |
| Admin.SpeedNonNegative | includes/class-oss-admin.php:107-111 | the speed is a float of at least 0: the submitted cast when it is non-negative, else 0 |
| Admin.EasingValidated | includes/class-oss-admin.php:113-118 | an allowed easing is kept without error; anything else becomes null with exactly one error, even when the field is absent |
| Admin.OffsetAndMobile | includes/class-oss-admin.php:120-124 | the offset is the `(int)` cast of the input or 0; the mobile flag is 0 or 1, and 1 iff the input is not empty |
| Admin.NegativeOffsetKept | includes/class-oss-admin.php:120-121 | a negative offset passes through unchanged |
| Admin.LocationValidated | includes/class-oss-admin.php:126-130 | the location is header or footer: the submitted one when it is allowed, else footer |
| Admin.ErrorsOnlyLibraryAndEasing | includes/class-oss-admin.php:100-118 | only the library and easing checks record errors, at most one each |
| Admin.AdminOnlyLibraries | includes/class-oss-admin.php:96 | the admin accepts scrollbar and native, which get_options does not resolve |
| Admin.AcceptedLibraryResolution | includes/class-oss-plugin.php:199 | a saved library that the sanitizer accepted is active if it is locomotive or lenis; scrollbar and native become lenis |
| Admin.SavedLibraryResolution | includes/class-oss-admin.php:96-105 | after sanitizing, locomotive and lenis become active, while scrollbar and native are served as lenis |
| Frontend.LibraryScript | includes/class-oss-frontend.php:160-171 | the wrapper script is the library's own for the three wrapped libraries, else lenis's |
| Frontend.LibraryStyle | includes/class-oss-frontend.php:179-190 | a stylesheet exists iff the library is wrapped, and is named after it |
| Frontend.Present | includes/class-oss-frontend.php:69-97 | the registered vendors are exactly the candidates whose files exist |
| Frontend.VendorScripts | includes/class-oss-frontend.php:69-97 | the switch registers the present candidates in order |
| Frontend.NoVendorsForOtherLibraries | includes/class-oss-frontend.php:70-97 | a library outside the three gets no vendor script |
| Frontend.GsapVendorOrder | includes/class-oss-frontend.php:85-96 | GSAP core comes before ScrollTrigger, each only when its file exists; ScrollTrigger depends on the core |
| Frontend.TrimTrailingSlashes | includes/class-oss-frontend.php:130 | `rtrim($url, '/')` is a prefix with no trailing slash, and removes only slashes |
| Frontend.BlockOrEmpty | includes/class-oss-frontend.php:127-129 | an array block is passed as it is, anything else as an empty array |
| Frontend.EnqueueAssets | includes/class-oss-frontend.php:35-152 | for the saved options, the method produces the asset plan of the resolved options and library |
| Frontend.EnqueueFor | includes/class-oss-frontend.php:44-143 | the method's sequence of registrations produces the asset plan |
| Frontend.SkippedOnlyOnMobile | includes/class-oss-frontend.php:40-42 | nothing is enqueued iff the visitor is on mobile and mobile is disabled |
| Frontend.FooterUnlessHeader | includes/class-oss-frontend.php:44 | scripts load in the footer iff the saved location is anything but "header" |
| Frontend.LocationIsFooterUnlessHeader | includes/class-oss-plugin.php:202 | the resolved location is footer iff the value is not "header" |
| Frontend.ScriptOrder | includes/class-oss-frontend.php:99-118 | the vendors come first, then the wrapper (if its file exists) depending on the vendors, then the initializer depending on the wrapper |
| Frontend.ActiveLibraryAssets | includes/class-oss-frontend.php:55-56 | the active library always has its own wrapper script and stylesheet |
| Frontend.PayloadLayout | includes/class-oss-frontend.php:120-132 | the payload's seven keys in order, with the library, the general block and the three library blocks; there is no top-level anchorOffset |
| Frontend.GeneralLayout | includes/class-oss-frontend.php:122-126 | the general block holds the int offset, the mobile flag as a boolean and the mobile state |
| Frontend.GeneralOfSaved | includes/class-oss-frontend.php:123-124 | for saved options, the general block carries the resolved offset and the non-emptiness of the mobile setting |
| Orchestrator.Settings | assets/js/oss-init.js:10 | the settings are `window.ossSettings` when it is truthy, else `{}` |
| Orchestrator.SelectApi | assets/js/oss-init.js:27 | the wrapper is used iff it is truthy |
| Orchestrator.AnchorOffset | assets/js/oss-init.js:39 | the offset is `Number(settings.anchorOffset)` when that is finite and not zero, and 0 otherwise; a missing or object value gives 0 |
| Orchestrator.DefaultScrollTo | assets/js/oss-init.js:18-24 | the fallback scrolls the window to `max(0, y - offset)` |
| Orchestrator.LookupTarget | assets/js/oss-init.js:34-35 | the decoded id is looked up first, then the selector; a decode or selector failure is an exception |
| Orchestrator.HandleAnchorClick | assets/js/oss-init.js:29-43 | no action for a missing href or one without `#`; a scroll iff a target is found; an escaping exception iff lookup throws; the wrapper scroll is retried with the fallback only when it throws |
| Orchestrator.ClickEndsInOneScroll | assets/js/oss-init.js:38-42 | a click issues one or two scroll calls to the same target and options; two iff the wrapper throws, the second via the fallback |
| Orchestrator.ClickScrollsWithOffset | assets/js/oss-init.js:39 | with offset 80 and a target at 1000, the fallback scrolls to 920 |
| Orchestrator.BindableIff | assets/js/oss-init.js:46-49 | a link gets a listener iff its href starts with `#` and is longer than `#` |
| Orchestrator.BoundIff | assets/js/oss-init.js:45-53 | the binding loop binds exactly the bindable links among those scanned |
| Orchestrator.HashEffects | assets/js/oss-init.js:65-72 | at most one deferred scroll, present iff there is a hash whose id is found, through the chosen API with the hash options |
| Orchestrator.Startup | assets/js/oss-init.js:80-84 | init is deferred iff the document is already interactive or complete, else it waits for DOMContentLoaded |
| Orchestrator.Page.constructor | assets/js/oss-init.js:10-27 | the page starts with the settings, the chosen API and no effects |
| Orchestrator.Page.BindAnchorLinks | assets/js/oss-init.js:45-53 | the loop appends exactly the bindings of all links |
| Orchestrator.Page.Init | assets/js/oss-init.js:55-78 | init appends its effects in order; the root gains the native class iff the fallback API is in use, since DefaultAPI's init adds it; a wrapper's init is recorded as a call and its body is not modelled here |
| Orchestrator.DispatchedLast | assets/js/oss-init.js:74-77 | `oss:initialized` is the last effect of init and the only dispatch |
| Orchestrator.HashScrollAfterBinding | assets/js/oss-init.js:62-72 | no hash scroll precedes a listener binding, and the hash scroll uses the chosen API |
| LenisWrapper.Lerp | libraries/lenis.js:24 | lerp is in [0.01, 0.99]: 1/(10·speed) clamped for a positive speed, else 0.1 |
| LenisWrapper.LerpAntitone | libraries/lenis.js:24 | a faster speed never gives a larger lerp |
| LenisWrapper.Wrapper.constructor | libraries/lenis.js:9 | no instance at load |
| LenisWrapper.Wrapper.Init | libraries/lenis.js:16-29 | no change without Lenis; null settings or a throwing constructor leaves no instance; otherwise the instance with wheel smoothing, touch smoothing from enableMobile and the computed lerp |
| LenisWrapper.Wrapper.ScrollTo | libraries/lenis.js:31-39 | with a scrollable instance, an unclamped `y - offset` to Lenis; otherwise the clamped window scroll |
| LocomotiveWrapper.Multiplier | libraries/locomotive.js:25 | the multiplier is non-zero: `Number(speed)` when it is finite and non-zero, else 1 |
| LocomotiveWrapper.Easing | libraries/locomotive.js:26 | the easing is truthy: the setting when it is truthy, else "ease" |
| LocomotiveWrapper.Wrapper.constructor | libraries/locomotive.js:10 | no instance at load |
| LocomotiveWrapper.Wrapper.Init | libraries/locomotive.js:17-31 | no change without the library; a failure leaves no instance; otherwise smooth, with the multiplier and easing |
| LocomotiveWrapper.Wrapper.ScrollTo | libraries/locomotive.js:33-41 | with a scrollable instance, an unclamped `y - offset` over 1000 ms; otherwise the clamped window scroll |
| ScrollbarWrapper.Damping | libraries/scrollbar.js:24 | damping is in [0.01, 1]: 0.1 for a missing, NaN or zero speed, 1/(10·speed) when that is in range, 1 for a speed in (0, 0.1], and 0.01 for a speed of at least 10 or a negative speed |
| ScrollbarWrapper.Wrapper.constructor | libraries/scrollbar.js:9 | no instance at load |
| ScrollbarWrapper.Wrapper.Init | libraries/scrollbar.js:16-27 | no change without the library; a failure leaves no instance; otherwise on the first `[data-scrollbar]` element or the body, with the damping |
| ScrollbarWrapper.Wrapper.ScrollTo | libraries/scrollbar.js:29-37 | with a scrollable instance, the clamped top at x 0 over 600 ms; otherwise the clamped window scroll |
| NativeWrapper.Init | libraries/native.js:10-12 | the root gains the native smooth class, whatever the settings |
| NativeWrapper.ScrollToClamps | libraries/native.js:14-20 | a window scroll to `y - offset` when that is non-negative, 0 when it is negative, and NaN when either is NaN |
| GsapWrapper.ParseJsonSafe | libraries/gsap.js:10-12 | the parsed value when the string is truthy and parses, and the fallback when it is falsy or does not parse |
| GsapWrapper.ReadEntry | libraries/gsap.js:32-39 | a falsy entry reads as `{}`; the trigger config holds exactly the entry's properties other than animation and target |
| GsapWrapper.ReadEntries | libraries/gsap.js:31-32 | one entry read per declared trigger, in order |
| GsapWrapper.Without | libraries/gsap.js:38-39 | the copied config holds exactly the properties other than animation and target |
| GsapWrapper.Init | libraries/gsap.js:14-45 | nothing without gsap; otherwise the ScrollTrigger defaults, then the trigger loop's calls when the parsed triggers form a non-empty array and `gsap.to` exists |
| GsapWrapper.RunTriggers | libraries/gsap.js:31-43 | the loop, with `tween` carried across iterations, produces the calls of `TriggerCalls` |
| GsapWrapper.ProcessEntry | libraries/gsap.js:32-42 | one iteration issues the from/to tweens and the trigger, and leaves `tween` as `EntryTween` says |
| GsapWrapper.EntryTriggers | libraries/gsap.js:37-42 | an iteration creates at most its own trigger, only when ScrollTrigger exists and the entry has a trigger |
| GsapWrapper.CreatedTriggers | libraries/gsap.js:31-43 | the triggers the loop creates are `TriggersAsWritten`, where a trigger's animation may be a tween of an earlier entry |
| GsapWrapper.IntendedTriggers | libraries/gsap.js:31-43 | with `tween` reset for every entry, the created triggers are `TriggersIntended`: each animation is the entry's own tween or null |
| GsapWrapper.TriggerAnimation | libraries/gsap.js:33-40 | a trigger's animation is its to tween, else its from tween, else what `tween` held before; its config never has animation or target |
| GsapWrapper.BothTweens | libraries/gsap.js:35-36 | an entry with both tweens issues from and then to, and the trigger gets the to tween |
| GsapWrapper.AsWrittenMatchesIntended | libraries/gsap.js:34-40 | when every triggered entry declares a tween, the as-written loop and the corrected one issue the same calls |
| GsapWrapper.TweenLeaksIntoLaterTrigger | libraries/gsap.js:34-40 | two triggers, only the first with a to tween: as written, the second gets the first entry's tween; as intended, it gets null |
| GsapWrapper.ScrollTo | libraries/gsap.js:47-68 | a GSAP tween iff gsap, enableScrollTo and ScrollToPlugin are present and the tween does not throw, else the window scroll; the top is `max(0, y - offset)`; duration, ease, autoKill and overwrite come from the config |
| GsapWrapper.ScrollToOffset | libraries/gsap.js:50 | with a numeric offset option, or a falsy config offset, the top is the shared clamped top |
| Localize.ToJs | includes/class-oss-frontend.php:142 | json_encode: an empty array becomes `[]`, any other array an object with the same keys and values in order; null, booleans, integers, floats and strings map to the JavaScript value of the same kind and value |
| Localize.EncodedArrayTruthy | includes/class-oss-frontend.php:127-129 | every encoded block is truthy in JavaScript, the empty one included |
| Localize.PropOfArray | includes/class-oss-frontend.php:142 | a property of an encoded array is the encoding of the PHP element, or undefined when there is no such key |
| Localize.SettingsLayout | includes/class-oss-frontend.php:120-132 | `window.ossSettings` carries the gsap and general blocks and no top-level anchorOffset, speed, enableMobile or easing |
| Localize.AnchorOffsetNeverReachesScroll | assets/js/oss-init.js:39 | every anchor scroll uses offset 0, while the saved offset sits unread under `general.anchorOffset` |
| Localize.WrappersRunOnDefaults | libraries/lenis.js:23-24 | with the real payload: Lenis lerp 0.1 with touch smoothing off, Locomotive multiplier 1 and easing "ease", Smooth Scrollbar damping 0.1 |
| Localize.OrchestratedOffset | libraries/gsap.js:50 | the orchestrator always passes a numeric offset, so GSAP never falls back to its config offset |
| Localize.GsapReadsItsBlock | libraries/gsap.js:18 | the GSAP config is the encoded gsap option block, or `[]` when that option is not an array |

## Left out

- WordPress calls become parameters or identities:
  - `get_option`, `current_user_can`, `wp_is_mobile` and `file_exists` are parameters;
  - the `oss_default_options`, `oss_options`, `oss_active_library` and `oss_localized_settings` filters are the identity;
  - `do_action`, the text domain and translations are not modelled.
- Admin.SanitizeOptions: the nonce check (`check_admin_referer`) is not modelled, because it ends the request rather than shaping the result.
- Admin.SanitizeOptions: the defaults are a parameter; the lemmas use `Plugin.Defaults`.
- `sanitize_text_field` is the identity on strings and "" on other values. Tag stripping and whitespace trimming are not modelled. So a submission with surrounding whitespace or tags around an allowed value is handled differently: WordPress trims `" locomotive "` to the accepted `locomotive`, while the model rejects it and reverts to the default.
- The settings page rendering, the admin assets hook, `admin/js/oss-admin.js`, the plugin bootstrap file and `uninstall.php` are not part of this model.
- PHP arrays have string keys only. List-shaped arrays and integer keys are not modelled.
- Localize.ToJs: `wp_localize_script` turns top-level scalars into strings. The model encodes them as `json_encode` would. No lemma reads a top-level scalar.
- Numbers are unbounded reals and integers:
  - IEEE-754 rounding, infinities, signed zero and PHP integer overflow are not modelled;
  - `Number()` of a string, and PHP numeric-string prefixes, cover plain decimal forms only. Exponents, hexadecimal and whitespace are not modelled.
- The third-party libraries (Lenis, Locomotive Scroll, Smooth Scrollbar, GSAP, ScrollTrigger, ScrollToPlugin) are not modelled. A call to one is recorded as a command or call value, and whether it throws is a parameter.
- `requestAnimationFrame` driving Lenis is not modelled.
- `setTimeout` ordering is reduced to the order of the effects. A deferred hash scroll is recorded, not run.
- `CustomEvent` failures are swallowed in the source and are not modelled.
- Orchestrator.HandleAnchorClick: the `!link` guard is not modelled, because `currentTarget` is always the bound link.
- `preventDefault` is implied by a `Scrolled` result only. In an `Escaped` click the target lookup (`oss-init.js:35`) throws before `event.preventDefault()` (`oss-init.js:37`) is reached.
- GsapWrapper.Init: `ScrollTrigger.defaults`, `gsap.from`, `gsap.to` and `ST.create` are recorded as calls. An exception from `ST.create` is swallowed and does not change the recorded calls. An exception from `gsap.from` or `gsap.to` (`gsap.js:35-36`) is not modelled: those calls sit outside any `try`, so such a throw would end the loop and the wrapper's `init`, and `oss-init.js:56-60` would swallow it.
- GsapWrapper.RunTriggers: it is handed all trigger entries read up front. Reading an entry has no effects, so the order of the calls is unchanged.
- An entry's `animation` is read only for truthiness of `from` and `to`. The tween values are passed through opaquely.

## Findings

| source | as written | input that shows it | evidently intended | confidence | as-written member | corrected member |
|---|---|---|---|---|---|---|
| libraries/gsap.js:34-40 | `var tween` is function-scoped, so a trigger whose entry declares no tween gets the tween of an earlier entry as its animation | `triggersJSON` = `[{"trigger":"#a","animation":{"to":{…}}},{"trigger":"#b"}]`: the trigger for `#b` is created with the `#a` tween | each trigger's animation is its own entry's tween, or null when the entry declares none | high; not executed | GsapWrapper.TweenLeaksIntoLaterTrigger | GsapWrapper.IntendedTriggers |

`GsapWrapper.RunTriggers` and `GsapWrapper.Init` keep the loop as written.
`GsapWrapper.IntendedTriggerCalls` is the corrected loop, with `tween` reset
for each entry. `GsapWrapper.IntendedTriggers` proves that under it every
trigger gets its own entry's tween, or null. `GsapWrapper.AsWrittenMatchesIntended`
shows that the two agree whenever every triggered entry declares a tween.

/** The front-end asset selection of includes/class-oss-frontend.php: which
    wrapper script and stylesheet belong to a library, which bundled vendor
    files are registered before it, and the settings payload handed to the
    orchestrator script. WordPress's enqueue calls are modelled by the list
    of assets they would register, and file_exists by a predicate on paths
    relative to the plugin directory. */
module Frontend {
  import opened Wrappers
  import opened PhpValues
  import opened Plugin

  /** Libraries that ship their own wrapper script and stylesheet. */
  const WrappedLibraries: seq<string> := ["locomotive", "lenis", "gsap"]

  /** map_library_to_js: every key gets a wrapper; unknown keys get Lenis's. */
  function LibraryScript(library: string): (path: string)
    ensures library in WrappedLibraries ==> path == "libraries/" + library + ".js"
    ensures library !in WrappedLibraries ==> path == "libraries/lenis.js"
  {
    match library
    case "locomotive" => "libraries/locomotive.js"
    case "lenis" => "libraries/lenis.js"
    case "gsap" => "libraries/gsap.js"
    case _ => "libraries/lenis.js"
  }

  /** map_library_to_css: a stylesheet for the wrapped libraries, null otherwise. */
  function LibraryStyle(library: string): (path: Option<string>)
    ensures path.Some? <==> library in WrappedLibraries
    ensures path.Some? ==> path.value == "libraries/" + library + ".css"
  {
    match library
    case "locomotive" => Some("libraries/locomotive.css")
    case "lenis" => Some("libraries/lenis.css")
    case "gsap" => Some("libraries/gsap.css")
    case _ => None
  }

  /** A registered script or stylesheet: its handle, its path relative to the
      plugin directory and the handles it depends on. */
  datatype Asset = Asset(handle: string, path: string, deps: seq<string>)

  function Handles(assets: seq<Asset>): (handles: seq<string>)
    ensures |handles| == |assets|
    ensures forall i :: 0 <= i < |assets| ==> handles[i] == assets[i].handle
  {
    if assets == [] then [] else [assets[0].handle] + Handles(assets[1..])
  }

  const GsapCore := Asset("oss-vendor-gsap", "libraries/gsap.min.js", [])
  const GsapScrollTrigger := Asset("oss-vendor-gsap-st", "libraries/ScrollTrigger.min.js", ["oss-vendor-gsap"])

  /** The bundled vendor files each library may use, in registration order. */
  function VendorCandidates(library: string): seq<Asset>
  {
    match library
    case "locomotive" => [Asset("oss-vendor-locomotive", "libraries/locomotive.min.js", [])]
    case "lenis" => [Asset("oss-vendor-lenis", "libraries/lenis.min.js", [])]
    case "gsap" => [GsapCore, GsapScrollTrigger]
    case _ => []
  }

  /** The assets of a list whose file exists, in their original order. */
  function Present(assets: seq<Asset>, fileExists: string -> bool): (r: seq<Asset>)
    ensures |r| <= |assets|
    ensures forall a :: a in r <==> a in assets && fileExists(a.path)
  {
    if assets == [] then []
    else
      var rest := Present(assets[1..], fileExists);
      assert forall a :: a in assets <==> a == assets[0] || a in assets[1..];
      if fileExists(assets[0].path) then [assets[0]] + rest else rest
  }

  /** The switch of enqueue_assets that registers the vendor files: each is
      registered only when its file fileExists. */
  method VendorScripts(library: string, fileExists: string -> bool) returns (vendors: seq<Asset>)
    ensures vendors == Present(VendorCandidates(library), fileExists)
  {
    vendors := [];
    if library == "locomotive" {
      var path := "libraries/locomotive.min.js";
      if fileExists(path) {
        vendors := vendors + [Asset("oss-vendor-locomotive", path, [])];
      }
    } else if library == "lenis" {
      var path := "libraries/lenis.min.js";
      if fileExists(path) {
        vendors := vendors + [Asset("oss-vendor-lenis", path, [])];
      }
    } else if library == "gsap" {
      if fileExists(GsapCore.path) {
        vendors := vendors + [GsapCore];
      }
      if fileExists(GsapScrollTrigger.path) {
        vendors := vendors + [GsapScrollTrigger];
      }
    }
  }

  /** No vendor file is registered for a library without a wrapper. */
  lemma NoVendorsForOtherLibraries(library: string, fileExists: string -> bool)
    requires library !in WrappedLibraries
    ensures Present(VendorCandidates(library), fileExists) == []
  {
  }

  /** For GSAP the core is registered before ScrollTrigger, which depends on
      it; when only ScrollTrigger's file fileExists it is registered alone, with
      a dependency on a handle that was never registered. */
  lemma GsapVendorOrder(fileExists: string -> bool)
    ensures var vendors := Present(VendorCandidates("gsap"), fileExists);
      && (fileExists(GsapCore.path) && fileExists(GsapScrollTrigger.path) ==> vendors == [GsapCore, GsapScrollTrigger])
      && (fileExists(GsapCore.path) && !fileExists(GsapScrollTrigger.path) ==> vendors == [GsapCore])
      && (!fileExists(GsapCore.path) && fileExists(GsapScrollTrigger.path) ==>
            vendors == [GsapScrollTrigger] && GsapCore.handle in GsapScrollTrigger.deps)
      && (!fileExists(GsapCore.path) && !fileExists(GsapScrollTrigger.path) ==> vendors == [])
  {
    var c := VendorCandidates("gsap");
    assert c == [GsapCore, GsapScrollTrigger];
    assert c[1..] == [GsapScrollTrigger];
    assert c[1..][1..] == [];
  }

  /** rtrim($url, '/'): the longest prefix that does not end in a slash. */
  function TrimTrailingSlashes(s: string): (r: string)
    ensures r <= s
    ensures r == [] || r[|r| - 1] != '/'
    ensures forall i :: |r| <= i < |s| ==> s[i] == '/'
  {
    if s != [] && s[|s| - 1] == '/' then TrimTrailingSlashes(s[..|s| - 1]) else s
  }

  /** isset($a) && is_array($a) ? $a : array(). */
  function BlockOrEmpty(v: Value): (r: Value)
    ensures r.Arr?
    ensures v.Arr? ==> r == v
    ensures !v.Arr? ==> r == Arr([])
  {
    if v != Null && v.Arr? then v else Arr([])
  }

  /** The general block of the payload. */
  function GeneralSettings(options: Entries, isMobile: bool): Entries
  {
    [ ("anchorOffset", Int(IntCast(Get(options, OffsetKey)))),
      ("enableMobile", Bool(IntCast(Get(options, MobileKey)) != 0)),
      ("isMobile", Bool(isMobile)) ]
  }

  /** The ossSettings payload, with the oss_localized_settings filter taken as
      the identity. */
  function Payload(options: Entries, library: string, isMobile: bool, pluginUrl: string, version: string): Entries
  {
    [ ("activeLibrary", Str(library)),
      ("general", Arr(GeneralSettings(options, isMobile))),
      ("locomotive", BlockOrEmpty(Get(options, "locomotive"))),
      ("lenis", BlockOrEmpty(Get(options, "lenis"))),
      ("gsap", BlockOrEmpty(Get(options, "gsap"))),
      ("pluginUrl", Str(TrimTrailingSlashes(pluginUrl))),
      ("pluginVersion", Str(version)) ]
  }

  const FrontendStyle := Asset("oss-frontend", "assets/css/oss-frontend.css", [])
  const InitScript := Asset("oss-init", "assets/js/oss-init.js", ["oss-library"])

  /** What enqueue_assets leaves behind: the enqueued stylesheets, the
      registered scripts in registration order, the enqueued script handles,
      whether scripts go to the footer, and the localized payload. */
  datatype Enqueued = Enqueued(styles: seq<Asset>, scripts: seq<Asset>, enqueued: seq<string>, inFooter: bool, payload: Entries)

  /** The stylesheets enqueue_assets enqueues. */
  function PlannedStyles(library: string, fileExists: string -> bool): seq<Asset>
  {
    var css := LibraryStyle(library);
    [FrontendStyle] + if css.Some? && fileExists(css.value) then [Asset("oss-library", css.value, [])] else []
  }

  /** The scripts enqueue_assets registers, in registration order: the vendor
      files, the wrapper when its file exists, and the orchestrator. */
  function PlannedScripts(library: string, fileExists: string -> bool): seq<Asset>
  {
    var vendors := Present(VendorCandidates(library), fileExists);
    var js := LibraryScript(library);
    vendors + (if fileExists(js) then [Asset("oss-library", js, Handles(vendors))] else []) + [InitScript]
  }

  /** The script handles enqueue_assets enqueues. */
  function PlannedEnqueued(library: string, fileExists: string -> bool): seq<string>
  {
    (if fileExists(LibraryScript(library)) then ["oss-library"] else []) + ["oss-init"]
  }

  /** The outcome of enqueue_assets for resolved options and an active library. */
  function AssetPlan(options: Entries, library: string, isMobile: bool, fileExists: string -> bool,
                     pluginUrl: string, version: string): Option<Enqueued>
  {
    if isMobile && Empty(Get(options, MobileKey)) then None
    else
      Some(Enqueued(PlannedStyles(library, fileExists), PlannedScripts(library, fileExists),
        PlannedEnqueued(library, fileExists), Get(options, LocationKey) == Str("footer"),
        Payload(options, library, isMobile, pluginUrl, version)))
  }

  /** enqueue_assets. The options and the active library are read through
      Plugin::get_options and Plugin::get_active_library from the saved
      option; wp_is_mobile and file_exists are parameters. */
  method EnqueueAssets(saved: Value, isMobile: bool, fileExists: string -> bool, pluginUrl: string, version: string)
    returns (r: Option<Enqueued>)
    ensures r == AssetPlan(ResolvedOptions(saved), ActiveLibrary(saved), isMobile, fileExists, pluginUrl, version)
  {
    var options := GetOptions(saved);
    var library := ActiveLibrary(saved);
    r := EnqueueFor(options, library, isMobile, fileExists, pluginUrl, version);
  }

  /** The body of enqueue_assets once the options and the library are known. */
  method EnqueueFor(options: Entries, library: string, isMobile: bool, fileExists: string -> bool,
                    pluginUrl: string, version: string)
    returns (r: Option<Enqueued>)
    ensures r == AssetPlan(options, library, isMobile, fileExists, pluginUrl, version)
  {
    if isMobile && Empty(Get(options, MobileKey)) {
      return None;
    }
    var inFooter := Get(options, LocationKey) == Str("footer");
    var styles := [FrontendStyle];
    var css := LibraryStyle(library);
    if css.Some? && fileExists(css.value) {
      styles := styles + [Asset("oss-library", css.value, [])];
    }
    assert styles == [FrontendStyle] + if css.Some? && fileExists(css.value) then [Asset("oss-library", css.value, [])] else [];
    var vendors := VendorScripts(library, fileExists);
    var scripts := vendors;
    var enqueued := [];
    var js := LibraryScript(library);
    if fileExists(js) {
      scripts := scripts + [Asset("oss-library", js, Handles(vendors))];
      enqueued := enqueued + ["oss-library"];
    }
    assert scripts == vendors + if fileExists(js) then [Asset("oss-library", js, Handles(vendors))] else [];
    assert enqueued == if fileExists(js) then ["oss-library"] else [];
    scripts := scripts + [InitScript];
    var payload := Payload(options, library, isMobile, pluginUrl, version);
    enqueued := enqueued + ["oss-init"];
    assert styles == PlannedStyles(library, fileExists);
    assert scripts == PlannedScripts(library, fileExists);
    assert enqueued == PlannedEnqueued(library, fileExists);
    r := Some(Enqueued(styles, scripts, enqueued, inFooter, payload));
  }

  // ---------------------------------------------------------------------------
  // Properties of the asset plan

  /** Nothing is enqueued exactly when the request is from a mobile device and
      the saved enable_mobile is empty. */
  lemma SkippedOnlyOnMobile(saved: Value, isMobile: bool, fileExists: string -> bool, pluginUrl: string, version: string)
    ensures AssetPlan(ResolvedOptions(saved), ActiveLibrary(saved), isMobile, fileExists, pluginUrl, version).None?
      <==> isMobile && Empty(Get(MergedOptions(saved), MobileKey))
  {
    ResolvedOptionsFields(saved);
    SkippedIff(ResolvedOptions(saved), ActiveLibrary(saved), isMobile, fileExists, pluginUrl, version,
      Get(MergedOptions(saved), MobileKey));
  }

  /** With enable_mobile resolved from a saved value, the assets are skipped
      exactly on a mobile device when that value is empty. */
  lemma SkippedIff(options: Entries, library: string, isMobile: bool, fileExists: string -> bool,
                   pluginUrl: string, version: string, mobile: Value)
    requires Get(options, MobileKey) == ResolvedMobile(mobile)
    ensures AssetPlan(options, library, isMobile, fileExists, pluginUrl, version).None? <==> isMobile && Empty(mobile)
  {
  }

  /** Scripts go to the footer unless the saved script_location is exactly
      "header": an invalid location resolves to the footer. */
  lemma FooterUnlessHeader(saved: Value, isMobile: bool, fileExists: string -> bool, pluginUrl: string, version: string)
    ensures var plan := AssetPlan(ResolvedOptions(saved), ActiveLibrary(saved), isMobile, fileExists, pluginUrl, version);
      plan.Some? ==> (plan.value.inFooter <==> Get(MergedOptions(saved), LocationKey) != Str("header"))
  {
    ResolvedOptionsFields(saved);
    FooterIff(ResolvedOptions(saved), ActiveLibrary(saved), isMobile, fileExists, pluginUrl, version,
      Get(MergedOptions(saved), LocationKey));
  }

  /** With script_location resolved from a saved value, the scripts go to the
      footer exactly when that value is not "header". */
  lemma FooterIff(options: Entries, library: string, isMobile: bool, fileExists: string -> bool,
                  pluginUrl: string, version: string, location: Value)
    requires Get(options, LocationKey) == ResolvedLocation(location)
    ensures var plan := AssetPlan(options, library, isMobile, fileExists, pluginUrl, version);
      plan.Some? ==> (plan.value.inFooter <==> location != Str("header"))
  {
    LocationIsFooterUnlessHeader(location);
  }

  lemma LocationIsFooterUnlessHeader(v: Value)
    ensures ResolvedLocation(v) == Str("footer") <==> v != Str("header")
  {
    if v == Str("header") {
      assert StrictlyIn(v, ScriptLocations);
    }
  }

  /** The registration order: the vendor files that exist, then the wrapper
      (when its file exists) depending on exactly those vendors, then the
      orchestrator depending on the wrapper. */
  lemma ScriptOrder(library: string, fileExists: string -> bool)
    ensures var scripts := PlannedScripts(library, fileExists);
      var vendors := Present(VendorCandidates(library), fileExists);
      && |scripts| == |vendors| + (if fileExists(LibraryScript(library)) then 2 else 1)
      && scripts[..|vendors|] == vendors
      && (forall a :: a in vendors ==> fileExists(a.path))
      && scripts[|scripts| - 1] == InitScript && InitScript.deps == ["oss-library"]
      && (fileExists(LibraryScript(library)) ==>
            scripts[|vendors|] == Asset("oss-library", LibraryScript(library), Handles(vendors)))
  {
  }

  /** The library get_active_library returns always has its own wrapper
      script and stylesheet, so the fallbacks of the two maps are never taken
      from enqueue_assets. */
  lemma ActiveLibraryAssets(saved: Value)
    ensures var library := ActiveLibrary(saved);
      && LibraryScript(library) == "libraries/" + library + ".js"
      && LibraryStyle(library) == Some("libraries/" + library + ".css")
  {
    var library := ActiveLibrary(saved);
    assert library in WrappedLibraries;
  }

  /** The payload's keys and fields. The anchor offset lives only inside the
      general block: the top level has no anchorOffset key. */
  lemma PayloadLayout(options: Entries, library: string, isMobile: bool, pluginUrl: string, version: string)
    ensures var p := Payload(options, library, isMobile, pluginUrl, version);
      && Keys(p) == ["activeLibrary", "general", "locomotive", "lenis", "gsap", "pluginUrl", "pluginVersion"]
      && Distinct(p)
      && Get(p, "activeLibrary") == Str(library)
      && Get(p, "general") == Arr(GeneralSettings(options, isMobile))
      && Get(p, "locomotive") == BlockOrEmpty(Get(options, "locomotive"))
      && Get(p, "lenis") == BlockOrEmpty(Get(options, "lenis"))
      && Get(p, "gsap") == BlockOrEmpty(Get(options, "gsap"))
      && Get(p, "anchorOffset") == Null
  {
    var p := Payload(options, library, isMobile, pluginUrl, version);
    PayloadKeys(p);
  }

  /** Reading an array laid out with the payload's keys. */
  lemma PayloadKeys(p: Entries)
    requires |p| == 7
    requires p[0].0 == "activeLibrary" && p[1].0 == "general" && p[2].0 == "locomotive" && p[3].0 == "lenis"
    requires p[4].0 == "gsap" && p[5].0 == "pluginUrl" && p[6].0 == "pluginVersion"
    ensures Keys(p) == ["activeLibrary", "general", "locomotive", "lenis", "gsap", "pluginUrl", "pluginVersion"]
    ensures Distinct(p)
    ensures Get(p, "activeLibrary") == p[0].1 && Get(p, "general") == p[1].1 && Get(p, "locomotive") == p[2].1
    ensures Get(p, "lenis") == p[3].1 && Get(p, "gsap") == p[4].1
    ensures Get(p, "anchorOffset") == Null
  {
    PayloadKeysDistinct(p);
    GetMissing(p, "anchorOffset");
    GetDistinct(p, 0);
    GetDistinct(p, 1);
    GetDistinct(p, 2);
    GetDistinct(p, 3);
    GetDistinct(p, 4);
  }

  lemma PayloadKeysDistinct(p: Entries)
    requires |p| == 7
    requires p[0].0 == "activeLibrary" && p[1].0 == "general" && p[2].0 == "locomotive" && p[3].0 == "lenis"
    requires p[4].0 == "gsap" && p[5].0 == "pluginUrl" && p[6].0 == "pluginVersion"
    ensures Keys(p) == ["activeLibrary", "general", "locomotive", "lenis", "gsap", "pluginUrl", "pluginVersion"]
    ensures Distinct(p)
    ensures "anchorOffset" !in KeySet(p)
  {
  }

  /** The general block: an int offset, a boolean enable flag and the device flag. */
  lemma GeneralLayout(options: Entries, isMobile: bool)
    ensures var g := GeneralSettings(options, isMobile);
      && Distinct(g)
      && Get(g, "anchorOffset") == Int(IntCast(Get(options, OffsetKey)))
      && Get(g, "enableMobile") == Bool(IntCast(Get(options, MobileKey)) != 0)
      && Get(g, "isMobile") == Bool(isMobile)
  {
    var g := GeneralSettings(options, isMobile);
    assert Distinct(g);
    GetDistinct(g, 0);
    GetDistinct(g, 1);
    GetDistinct(g, 2);
  }

  /** For saved options, the payload's offset is the resolved anchor_offset
      and its enable flag is true exactly when the saved enable_mobile is not
      empty. */
  lemma GeneralOfSaved(saved: Value, isMobile: bool)
    ensures var m := MergedOptions(saved);
      var g := GeneralSettings(ResolvedOptions(saved), isMobile);
      && Get(g, "anchorOffset") == ResolvedOffset(Get(m, OffsetKey))
      && Get(g, "enableMobile") == Bool(!Empty(Get(m, MobileKey)))
  {
    ResolvedOptionsFields(saved);
    GeneralLayout(ResolvedOptions(saved), isMobile);
  }
}

/**
 * The capability classification used by the starfield and the tech-stack
 * section: mobile and Android detection from the user agent, a low-end
 * test from CPU cores and memory, the level low / medium / high, and the
 * fixed renderer settings for each level.
 */
module Device {
  import opened Wrappers
  import opened Environment
  import opened CaseInsensitive

  /** The user agent matches one of the mobile alternatives, case-insensitively. */
  function IsMobileDevice(nav: Navigator): (r: bool) {
    var ua := AsText(nav.userAgent);
    ContainsCI(ua, "Android") || ContainsCI(ua, "webOS") || ContainsCI(ua, "iPhone")
    || ContainsCI(ua, "iPad") || ContainsCI(ua, "iPod") || ContainsCI(ua, "BlackBerry")
    || ContainsCI(ua, "IEMobile") || ContainsCI(ua, "Opera Mini")
  }

  /** The user agent mentions Android, case-insensitively. */
  function IsAndroidDevice(nav: Navigator): (r: bool) {
    ContainsCI(AsText(nav.userAgent), "Android")
  }

  /**
   * Android is always low-end; a non-mobile device never is; otherwise a
   * mobile device is low-end when it has fewer than 4 cores or less than
   * 4 GB, a missing value counting as 0.
   */
  function IsLowEndDevice(nav: Navigator): (r: bool) {
    var mobile := IsMobileDevice(nav);
    if IsAndroidDevice(nav) then true
    else if !mobile then false
    else
      var cpuCores := CountOrZero(nav.hardwareConcurrency);
      var deviceMemory := AmountOrZero(nav.deviceMemory);
      mobile && (cpuCores < 4 || deviceMemory < 4.0)
  }

  datatype Level = Low | Medium | High {
    /** The string the source returns for the level. */
    function Name(): string {
      match this
      case Low => "low"
      case Medium => "medium"
      case High => "high"
    }
  }

  /** The capability level: low when low-end, else medium when mobile, else high. */
  function GetDeviceCapabilityLevel(nav: Navigator): (r: Level)
    ensures r == Low <==> IsLowEndDevice(nav)
    ensures r == Medium <==> IsMobileDevice(nav) && !IsLowEndDevice(nav)
    ensures r == High <==> !IsMobileDevice(nav)
  {
    if IsLowEndDevice(nav) then Low
    else if IsMobileDevice(nav) then Medium
    else High
  }

  datatype PowerPreference = LowPower | Default | HighPerformance
  datatype Precision = Lowp | Mediump | Highp
  datatype FrameLoop = Demand | Always

  /** A device-pixel-ratio clamp, in tenths: `DprRange(5, 10)` is `[0.5, 1.0]`. */
  datatype DprRange = DprRange(min: nat, max: nat)

  datatype RenderSettings = RenderSettings(
    dpr: DprRange,
    powerPreference: PowerPreference,
    antialias: bool,
    alpha: bool,
    stencil: bool,
    precision: Precision,
    frameloop: FrameLoop
  )

  const LowSettings := RenderSettings(DprRange(5, 10), LowPower, false, false, false, Lowp, Demand)
  const MediumSettings := RenderSettings(DprRange(8, 15), Default, false, false, false, Mediump, Demand)
  const HighSettings := RenderSettings(DprRange(10, 20), HighPerformance, true, true, true, Highp, Always)

  /** The `switch` over the level name; any other name takes the high branch. */
  function SettingsFor(level: string): (r: RenderSettings) {
    if level == "low" then LowSettings
    else if level == "medium" then MediumSettings
    else HighSettings
  }

  /** The renderer settings for the device's capability level. */
  function GetRenderingSettings(nav: Navigator): (r: RenderSettings)
    ensures GetDeviceCapabilityLevel(nav) == Low ==>
              r == RenderSettings(DprRange(5, 10), LowPower, false, false, false, Lowp, Demand)
    ensures GetDeviceCapabilityLevel(nav) == Medium ==>
              r == RenderSettings(DprRange(8, 15), Default, false, false, false, Mediump, Demand)
    ensures GetDeviceCapabilityLevel(nav) == High ==>
              r == RenderSettings(DprRange(10, 20), HighPerformance, true, true, true, Highp, Always)
    ensures r.antialias <==> !IsMobileDevice(nav)
    ensures r.frameloop == Always <==> !IsMobileDevice(nav)
    ensures r.alpha == r.stencil == r.antialias
    ensures r.dpr.min <= r.dpr.max
  {
    SettingsFor(GetDeviceCapabilityLevel(nav).Name())
  }

  /** The outcome of one step of the WebGL probe that may throw. */
  datatype Attempt = Threw | Returned(nonNull: bool)

  /**
   * What the environment does when probed: whether a canvas could be
   * created, whether `WebGLRenderingContext` exists, and what the two
   * `getContext` calls do.
   */
  datatype WebGLProbe = WebGLProbe(
    canvasCreated: bool,
    hasRenderingContextType: bool,
    webgl: Attempt,
    experimentalWebgl: Attempt
  )

  /**
   * Whether WebGL is available. A step that throws makes the answer false;
   * the experimental context is asked for only when the standard one is null.
   */
  function SupportsWebGL(p: WebGLProbe): (r: bool)
    ensures r ==> p.canvasCreated && p.hasRenderingContextType
    ensures p.webgl == Threw ==> !r
    ensures p.canvasCreated && p.hasRenderingContextType && p.webgl == Returned(true) ==> r
    ensures p.webgl == Returned(false) ==>
              (r <==> p.canvasCreated && p.hasRenderingContextType && p.experimentalWebgl == Returned(true))
  {
    if !p.canvasCreated then false
    else if !p.hasRenderingContextType then false
    else match p.webgl
      case Threw => false
      case Returned(found) =>
        if found then true
        else match p.experimentalWebgl
          case Threw => false
          case Returned(foundExperimental) => foundExperimental
  }

  /** Every Android user agent is also a mobile one. */
  lemma AndroidIsMobile(nav: Navigator)
    ensures IsAndroidDevice(nav) ==> IsMobileDevice(nav)
  {
  }

  /** An Android user agent is low-end whatever its core count and memory. */
  lemma AndroidIsLowEnd(nav: Navigator, cores: Option<nat>, memory: Option<real>)
    requires IsAndroidDevice(nav)
    ensures IsLowEndDevice(nav.(hardwareConcurrency := cores, deviceMemory := memory))
  {
  }

  /** A user agent with no mobile alternative is never low-end, whatever its hardware. */
  lemma DesktopNeverLowEnd(nav: Navigator, cores: Option<nat>, memory: Option<real>)
    requires !IsMobileDevice(nav)
    ensures !IsLowEndDevice(nav.(hardwareConcurrency := cores, deviceMemory := memory))
  {
  }

  /**
   * A mobile, non-Android device is low-end exactly when fewer than 4 cores
   * or less than 4 GB are reported, a missing value counting as 0.
   */
  lemma MobileLowEndIff(nav: Navigator)
    requires IsMobileDevice(nav) && !IsAndroidDevice(nav)
    ensures IsLowEndDevice(nav) <==>
              (nav.hardwareConcurrency.None? || nav.hardwareConcurrency.value < 4
               || nav.deviceMemory.None? || nav.deviceMemory.value < 4.0)
  {
  }

  /**
   * Memory is not ignored when unavailable: a mobile device that reports no
   * memory is low-end however many cores it has.
   */
  lemma MissingMemoryOnMobileIsLowEnd(nav: Navigator)
    requires IsMobileDevice(nav) && nav.deviceMemory.None?
    ensures IsLowEndDevice(nav)
    ensures GetDeviceCapabilityLevel(nav) == Low
  {
  }

  /** A mobile, non-Android device with at least 4 cores and 4 GB is medium. */
  lemma CapableMobileIsMedium(nav: Navigator, cores: nat, memory: real)
    requires IsMobileDevice(nav) && !IsAndroidDevice(nav)
    requires cores >= 4 && memory >= 4.0
    ensures GetDeviceCapabilityLevel(nav.(hardwareConcurrency := Some(cores), deviceMemory := Some(memory))) == Medium
  {
  }

  /** Antialiasing, alpha, stencil and the continuous frame loop belong to the high level only. */
  lemma SettingsHighOnlyFeatures(level: string)
    ensures SettingsFor(level).antialias <==> level != "low" && level != "medium"
    ensures SettingsFor(level).frameloop == Always <==> level != "low" && level != "medium"
    ensures SettingsFor(level).alpha == SettingsFor(level).stencil == SettingsFor(level).antialias
  {
  }

  /** The settings are total: a name other than "low" and "medium" gets the high settings. */
  lemma SettingsUnknownLevelIsHigh(level: string)
    requires level != "low" && level != "medium"
    ensures SettingsFor(level) == SettingsFor(High.Name())
  {
  }

  /** The order of the levels. */
  function Rank(l: Level): nat {
    match l
    case Low => 0
    case Medium => 1
    case High => 2
  }

  /**
   * Every dpr range is well formed, both bounds grow with the level, and
   * each level has its own power preference and shader precision.
   */
  lemma SettingsMonotoneInLevel(a: Level, b: Level)
    requires Rank(a) <= Rank(b)
    ensures SettingsFor(a.Name()).dpr.min <= SettingsFor(a.Name()).dpr.max
    ensures SettingsFor(a.Name()).dpr.min <= SettingsFor(b.Name()).dpr.min
    ensures SettingsFor(a.Name()).dpr.max <= SettingsFor(b.Name()).dpr.max
    ensures SettingsFor(a.Name()).antialias ==> SettingsFor(b.Name()).antialias
    ensures a != b ==> SettingsFor(a.Name()).powerPreference != SettingsFor(b.Name()).powerPreference
    ensures a != b ==> SettingsFor(a.Name()).precision != SettingsFor(b.Name()).precision
  {
  }

  /**
   * An Android phone with 8 cores and 8 GB: low level, low-power settings
   * without antialiasing.
   */
  lemma AndroidFlagshipScenario()
    ensures var nav := Navigator(Some("Mozilla/5.0 (Linux; Android 14; Pixel 8)"), None, Some(8), Some(8.0));
            GetDeviceCapabilityLevel(nav) == Low && GetRenderingSettings(nav) == LowSettings
  {
    var ua := "Mozilla/5.0 (Linux; Android 14; Pixel 8)";
    assert ua == "Mozilla/5.0 (Linux; " + "Android" + " 14; Pixel 8)";
    ContainsCIOfInfix("Mozilla/5.0 (Linux; ", "Android", " 14; Pixel 8)");
  }
}

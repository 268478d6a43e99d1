/**
 * The second, independent device check, used by the globe: a mobile test
 * that also accepts narrow viewports, a low-end test that trusts memory,
 * then cores, then the mobile test, and the combination that decides
 * whether the simplified 2D globe is shown.
 */
module DeviceDetection {
  import opened Wrappers
  import opened Environment
  import opened CaseInsensitive

  /** Viewports at most this wide count as small screens. */
  const SmallScreenMaxWidth := 768

  /** The user agent: the first truthy of `userAgent` and `vendor`, else `window.opera`. */
  function UserAgent(nav: Navigator, w: Window): (r: string)
    ensures IsTruthyText(nav.userAgent) ==> r == nav.userAgent.value
    ensures !IsTruthyText(nav.userAgent) && IsTruthyText(nav.vendor) ==> r == nav.vendor.value
    ensures !IsTruthyText(nav.userAgent) && !IsTruthyText(nav.vendor) ==> r == AsText(w.opera)
    ensures r == "" ==> w.opera == Some("")
  {
    if IsTruthyText(nav.userAgent) then nav.userAgent.value
    else if IsTruthyText(nav.vendor) then nav.vendor.value
    else AsText(w.opera)
  }

  /** The user agent names a phone or tablet platform. */
  predicate HasMobileAgent(ua: string) {
    var isAndroid := ContainsCI(ua, "Android");
    var isIOS := ContainsCI(ua, "iPhone") || ContainsCI(ua, "iPad") || ContainsCI(ua, "iPod");
    var isWindowsPhone := ContainsCI(ua, "Windows Phone");
    isAndroid || isIOS || isWindowsPhone
  }

  /** Mobile when the user agent names a mobile platform or the viewport is small. */
  function IsMobileDevice(env: Env): (r: bool)
    ensures env.navigator.None? ==> !r
    ensures env.navigator.Some? && env.window.innerWidth <= SmallScreenMaxWidth ==> r
    ensures env.navigator.Some? && HasMobileAgent(UserAgent(env.navigator.value, env.window)) ==> r
    ensures r ==> env.window.innerWidth <= SmallScreenMaxWidth
                  || HasMobileAgent(UserAgent(env.navigator.value, env.window))
  {
    if env.navigator.None? then false
    else
      var userAgent := UserAgent(env.navigator.value, env.window);
      var isSmallScreen := env.window.innerWidth <= SmallScreenMaxWidth;
      HasMobileAgent(userAgent) || isSmallScreen
  }

  /**
   * Low-end when memory is reported and at most 4 GB; with no memory, when
   * cores are reported and at most 4; with neither, when mobile.
   */
  function IsLowEndDevice(env: Env): (r: bool)
    ensures env.navigator.None? ==> !r
    ensures env.navigator.Some? && IsTruthyAmount(env.navigator.value.deviceMemory) ==>
              (r <==> env.navigator.value.deviceMemory.value <= 4.0)
    ensures env.navigator.Some? && !IsTruthyAmount(env.navigator.value.deviceMemory)
            && IsTruthyCount(env.navigator.value.hardwareConcurrency) ==>
              (r <==> env.navigator.value.hardwareConcurrency.value <= 4)
    ensures env.navigator.Some? && !IsTruthyAmount(env.navigator.value.deviceMemory)
            && !IsTruthyCount(env.navigator.value.hardwareConcurrency) ==>
              r == IsMobileDevice(env)
  {
    if env.navigator.None? then false
    else
      var nav := env.navigator.value;
      if IsTruthyAmount(nav.deviceMemory) then nav.deviceMemory.value <= 4.0
      else if IsTruthyCount(nav.hardwareConcurrency) then nav.hardwareConcurrency.value <= 4
      else IsMobileDevice(env)
  }

  /** What the hardware figures alone say: the memory, then the core rule. */
  predicate HardwareSaysLowEnd(nav: Navigator) {
    (IsTruthyAmount(nav.deviceMemory) && nav.deviceMemory.value <= 4.0)
    || (!IsTruthyAmount(nav.deviceMemory) && IsTruthyCount(nav.hardwareConcurrency)
        && nav.hardwareConcurrency.value <= 4)
  }

  /**
   * The simplified globe is shown to every mobile environment and, beyond
   * those, exactly to the ones whose hardware figures say low-end; never
   * when `navigator` is undefined.
   */
  function ShouldUseSimplifiedUI(env: Env): (r: bool)
    ensures r <==> env.navigator.Some? && (IsMobileDevice(env) || HardwareSaysLowEnd(env.navigator.value))
  {
    IsMobileDevice(env) || IsLowEndDevice(env)
  }

  /** When memory is reported, the core count plays no part. */
  lemma MemoryOverridesCores(env: Env, cores: Option<nat>)
    requires env.navigator.Some? && IsTruthyAmount(env.navigator.value.deviceMemory)
    ensures IsLowEndDevice(env.(navigator := Some(env.navigator.value.(hardwareConcurrency := cores))))
            == IsLowEndDevice(env)
  {
  }

  /** With no hardware figures at all, low-end and mobile coincide. */
  lemma NoFiguresLowEndIsMobile(env: Env)
    requires env.navigator.Some?
    requires !IsTruthyAmount(env.navigator.value.deviceMemory)
    requires !IsTruthyCount(env.navigator.value.hardwareConcurrency)
    ensures IsLowEndDevice(env) == IsMobileDevice(env) == ShouldUseSimplifiedUI(env)
  {
  }

  /** Any viewport of at most 768 pixels gets the simplified globe, whatever the user agent. */
  lemma SmallScreenIsSimplified(env: Env)
    requires env.navigator.Some? && env.window.innerWidth <= SmallScreenMaxWidth
    ensures ShouldUseSimplifiedUI(env)
  {
  }
}

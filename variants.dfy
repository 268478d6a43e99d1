/**
 * The two device checks side by side: where they agree and where their
 * thresholds and token lists make them disagree.
 */
module Variants {
  import opened Wrappers
  import opened Environment
  import opened CaseInsensitive
  import Device
  import DeviceDetection

  /**
   * A navigator whose user agent mentions Android gets the low level from
   * the first check and the simplified globe from the second.
   */
  lemma AndroidReducedInBoth(nav: Navigator, w: Window)
    requires Device.IsAndroidDevice(nav)
    ensures Device.GetDeviceCapabilityLevel(nav) == Device.Low
    ensures DeviceDetection.ShouldUseSimplifiedUI(Environment.Env(Some(nav), w))
  {
    // The user agent is defined and not empty, so the second check reads it too.
    if nav.userAgent == Some("") {
      ShorterNeverContains("", "Android");
    } else if nav.userAgent.None? {
      var u := "undefined";
      assert !SameLetter(u[0], 'A') && !SameLetter(u[1], 'A') && !SameLetter(u[2], 'A');
      assert !StartsWithCI(u, "Android") && !StartsWithCI(u[1..], "Android") && !StartsWithCI(u[2..], "Android");
      ShorterNeverContains(u[3..], "Android");
    }
  }

  /**
   * With exactly 4 GB the checks disagree: an iPhone with 8 cores is medium
   * for the first (memory must be below 4) and low-end for the second
   * (memory at most 4).
   */
  lemma FourGigabyteBoundaryDisagrees(w: Window)
    ensures var nav := Navigator(Some("iPhone"), None, Some(8), Some(4.0));
            Device.GetDeviceCapabilityLevel(nav) == Device.Medium
            && DeviceDetection.IsLowEndDevice(Environment.Env(Some(nav), w))
  {
    ContainsCIOfInfix("", "iPhone", "");
    assert "" + "iPhone" + "" == "iPhone";
    ShorterNeverContains("iPhone", "Android");
  }

  /**
   * With memory unreported the checks disagree the other way: a mobile
   * device with 8 cores is low for the first (missing memory is 0) and not
   * low-end for the second (the cores decide).
   */
  lemma MissingMemoryDisagrees(nav: Navigator, w: Window)
    requires Device.IsMobileDevice(nav) && nav.deviceMemory.None? && nav.hardwareConcurrency == Some(8)
    ensures Device.GetDeviceCapabilityLevel(nav) == Device.Low
    ensures !DeviceDetection.IsLowEndDevice(Environment.Env(Some(nav), w))
  {
  }

  /**
   * A user agent with none of the first check's tokens is high for it, yet
   * the second check shows the simplified globe when the viewport is at
   * most 768 pixels or the agent names Windows Phone.
   */
  lemma NarrowOrWindowsPhoneDisagrees(nav: Navigator, w: Window)
    requires !Device.IsMobileDevice(nav)
    requires w.innerWidth <= DeviceDetection.SmallScreenMaxWidth
             || ContainsCI(DeviceDetection.UserAgent(nav, w), "Windows Phone")
    ensures Device.GetDeviceCapabilityLevel(nav) == Device.High
    ensures Device.GetRenderingSettings(nav).frameloop == Device.Always
    ensures DeviceDetection.ShouldUseSimplifiedUI(Environment.Env(Some(nav), w))
  {
  }
}

# Device-capability classification of the portfolio site

The portfolio decides, per visitor, how much 3D work to do. Two small,
independent utility modules make that decision from the browser
environment:

- `src/utils/device.js` (used by the starfield and the tech-stack section)
  classifies the user agent as mobile and/or Android, decides whether the
  device is low-end from its CPU core count and memory, derives a level
  `low` / `medium` / `high`, and maps the level to fixed renderer settings
  (device-pixel-ratio range, power preference, antialiasing, alpha, stencil,
  shader precision, frame loop). It also probes for WebGL.
- `src/utils/deviceDetection.js` (used by the globe) is a second, differently
  tuned variant: its mobile test also accepts viewports of at most 768
  pixels, its low-end test trusts memory, then cores, then the mobile test,
  and `shouldUseSimplifiedUI` combines both.

Both are pure decisions over the environment. The model turns the ambient
`navigator` and `window` into values (`Environment.Navigator`,
`Environment.Window`, `Environment.Env`), with `None` for a property the
browser leaves undefined. JavaScript truthiness is explicit: a string is
truthy when defined and non-empty, a number when defined and non-zero,
`x || 0` gives 0 for both undefined and 0, and a regular-expression test
of `undefined` sees the string `"undefined"`.

User-agent matching is `CaseInsensitive.ContainsCI(ua, token)`, a matcher
that tries the token at each position, proved equal to the reference
definition "the token occurs at some index up to case". Every regular
expression alternation is a disjunction of such tests. ASCII case folding
is exact here: the tokens are ASCII letters and spaces, and a
case-insensitive JavaScript match without the `u` flag never maps a
non-ASCII character onto an ASCII one.

Device-pixel-ratio bounds are integer tenths: `[0.5, 1.0]` is
`DprRange(5, 10)`, `[0.8, 1.5]` is `DprRange(8, 15)`, `[1, 2]` is
`DprRange(10, 20)`. Device memory is a `real` (gigabytes), core count a `nat`.

Modules: `Wrappers` (Option), `Environment`, `CaseInsensitive`, `Device`
(`device.js`), `DeviceDetection` (`deviceDetection.js`), and `Variants`
(lemmas comparing the two).

Points where the code does not do what its comments or its sibling say:

- The comment "(if available)" beside the memory test
  (`src/utils/device.js:39`, `:44`) does not hold: `navigator.deviceMemory || 0`
  at `:40` turns a missing value into 0, which is below 4, so every mobile
  device that reports no memory is low-end
  (`Device.MissingMemoryOnMobileIsLowEnd`).
- Android returns true at `src/utils/device.js:31` before the hardware is
  looked at, so a mobile device with at least 4 cores and 4 GB is medium
  only when it is not Android (`Device.CapableMobileIsMedium`).
- The two modules' mobile tests differ. `src/utils/device.js:10` lists
  webOS, BlackBerry, IEMobile and Opera Mini and has no width test;
  `src/utils/deviceDetection.js:10-19` has Windows Phone and the
  768-pixel width test but none of those four tokens
  (`Variants.NarrowOrWindowsPhoneDisagrees`).

## Model

| member | source | states |
|---|---|---|
| CaseInsensitive.ContainsCIIffOccurs | src/utils/device.js:10-12 | the matcher used for every regular expression test finds a token exactly when the token occurs at some index of the user agent, letter for letter up to case |
| CaseInsensitive.ContainsCIIgnoresCase | src/utils/device.js:20 | the `i` flag: changing the case of any letters of the user agent or of the token does not change the outcome |
| CaseInsensitive.ContainsCIOfInfix | src/utils/deviceDetection.js:10 | a user agent that literally contains a token matches it |
| CaseInsensitive.ShorterNeverContains | src/utils/deviceDetection.js:13 | a token longer than the user agent never matches |
| Device.AndroidIsMobile | src/utils/device.js:9-21 | every Android user agent is also mobile, since Android is one of the mobile alternatives |
| Device.AndroidIsLowEnd | src/utils/device.js:27-31 | an Android user agent is low-end whatever core count and memory are reported, or missing |
| Device.DesktopNeverLowEnd | src/utils/device.js:33-34 | a user agent with no mobile alternative is never low-end, whatever its hardware |
| Device.MobileLowEndIff | src/utils/device.js:36-45 | a mobile non-Android device is low-end exactly when cores are missing or below 4, or memory is missing or below 4 GB |
| Device.MissingMemoryOnMobileIsLowEnd | src/utils/device.js:39-45 | a missing memory value counts as 0: every mobile device without one is low-end and gets the low level |
| Device.CapableMobileIsMedium | src/utils/device.js:42-62 | a mobile non-Android device with at least 4 cores and 4 GB gets the medium level |
| Device.GetDeviceCapabilityLevel | src/utils/device.js:52-62 | the level is low exactly when low-end, medium exactly when mobile and not low-end, high exactly when not mobile; so exactly one level applies |
| Device.GetRenderingSettings | src/utils/device.js:84-119 | the low level gets dpr [0.5, 1.0], low-power, no antialias/alpha/stencil, lowp, demand; medium gets dpr [0.8, 1.5], default, no antialias/alpha/stencil, mediump, demand; high gets dpr [1, 2], high-performance, antialias/alpha/stencil on, highp, always; so antialiasing and the continuous frame loop are on exactly for non-mobile devices, and the dpr minimum never exceeds the maximum |
| Device.SettingsHighOnlyFeatures | src/utils/device.js:87-118 | for any level name, antialiasing and the `always` frame loop are on exactly when the name is neither "low" nor "medium", and alpha and stencil follow antialiasing |
| Device.SettingsUnknownLevelIsHigh | src/utils/device.js:108-118 | the settings switch is total: an unrecognised level name gets the high settings |
| Device.SettingsMonotoneInLevel | src/utils/device.js:88-118 | every dpr range is well formed, both dpr bounds and antialiasing only grow from low to medium to high, and distinct levels get distinct power preferences and shader precisions |
| Device.SupportsWebGL | src/utils/device.js:68-78 | the probe never fails outward: a throwing step yields false, a standard WebGL context yields true, and the experimental context decides only when the standard one is null |
| Device.AndroidFlagshipScenario | src/utils/device.js:19-31 | an Android phone reporting 8 cores and 8 GB gets the low level and the low settings |
| DeviceDetection.UserAgent | src/utils/deviceDetection.js:7 | the user agent is the first truthy of `userAgent` and `vendor`, else the string form of `window.opera`; it is empty only if that is |
| DeviceDetection.IsMobileDevice | src/utils/deviceDetection.js:4-22 | false without `navigator`; otherwise true exactly when the user agent names Android, iPhone, iPad, iPod or Windows Phone, or the viewport is at most 768 pixels |
| DeviceDetection.IsLowEndDevice | src/utils/deviceDetection.js:25-40 | false without `navigator`; reported memory alone decides (at most 4 GB); else reported cores decide (at most 4); else it equals the mobile test |
| DeviceDetection.ShouldUseSimplifiedUI | src/utils/deviceDetection.js:43-45 | the simplified globe is shown to every mobile environment and, beyond those, exactly to those whose memory or core figure says low-end; never without `navigator` |
| DeviceDetection.MemoryOverridesCores | src/utils/deviceDetection.js:29-31 | when memory is reported, changing the core count never changes the low-end verdict |
| DeviceDetection.NoFiguresLowEndIsMobile | src/utils/deviceDetection.js:33-39 | with neither memory nor cores reported, low-end, mobile and the simplified globe coincide |
| DeviceDetection.SmallScreenIsSimplified | src/utils/deviceDetection.js:18-21 | a viewport of at most 768 pixels gets the simplified globe whatever the user agent |
| Variants.AndroidReducedInBoth | src/utils/device.js:30-31 | an Android user agent gets the low level from the first check and the simplified globe from the second |
| Variants.FourGigabyteBoundaryDisagrees | src/utils/deviceDetection.js:29-31 | with exactly 4 GB and 8 cores an iPhone is medium for the first check (below 4) but low-end for the second (at most 4) |
| Variants.MissingMemoryDisagrees | src/utils/device.js:37-45 | a mobile device with 8 cores and no memory figure is low for the first check but not low-end for the second |
| Variants.NarrowOrWindowsPhoneDisagrees | src/utils/deviceDetection.js:15-21 | a user agent without the first check's tokens is high there, with the continuous frame loop, yet gets the simplified globe when the viewport is narrow or it names Windows Phone |

## Left out

- An environment without `navigator`, for `device.js`: its functions read `navigator` unconditionally and would throw; the model's `Device` functions take a `Navigator` value, so that case is outside their domain.
- An environment with `navigator` but without `window`, for `deviceDetection.js`: reading `window.innerWidth` would throw; a browser always has both, and `Env` always carries a `Window`.
- The DOM side of `supportsWebGL` (creating a canvas, asking for contexts): it becomes the `WebGLProbe` input recording what each step did.
- `NaN` or negative memory figures and non-string user agents: browsers do not report them; memory is any `real` and cores a `nat`.
- Case folding beyond ASCII: exact for the fixed ASCII tokens, not a general model of JavaScript's `i` flag.
- The React components (canvas scenes, tech section, hero, error boundary with its redirect timer; of these only `Stars.jsx`, `Tech.jsx` and `Earth.jsx` call the modelled functions), the Three.js patch, authentication, content data and build configuration: presentation, foreign libraries and timers, not decision logic.
- Re-evaluation on viewport resize: each evaluation is a pure function of the snapshot, so repeated evaluation is a repeated call.

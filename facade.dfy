/**
 * The predicate façade: `safeUA`, `platform` and `instOf`, the accessors
 * that read the `run_env` record, and the OS predicates. Each is a pure
 * function of the record and of the host; a property read that throws
 * inside one of them makes that function return its fallback (`''` or
 * `false`) at that point.
 */
module Facade {
  import opened JsStrings
  import opened Host
  import opened Classifier

  // ----- helpers -----

  /** `safeUA()`: `navigator.userAgent`, or `''` when there is none or reading it throws. */
  function SafeUA(h: Host): string {
    if h.navigator.Some? && Readable(h, UserAgentGetter) && h.navigator.value.userAgent.Some?
    then h.navigator.value.userAgent.value
    else ""
  }

  /**
   * `platform()`: a truthy `navigator.userAgentData.platform`, else a truthy
   * `navigator.platform`, else `''`; a throwing read ends the cascade with `''`.
   */
  function Platform(h: Host): string {
    if h.navigator.None? || !Readable(h, UserAgentDataGetter) then ""
    else
      var nav := h.navigator.value;
      if nav.userAgentData.Some? && Truthy(nav.userAgentData.value.platform) then nav.userAgentData.value.platform.value
      else if !Readable(h, NavigatorPlatformGetter) then ""
      else if Truthy(nav.platform) then nav.platform.value
      else ""
  }

  /** `instOf(ctorName)`: the constructor exists and `self` is an instance of it; false if the lookup throws. */
  predicate InstOf(h: Host, s: Scope) {
    Readable(h, ScopeGetter(s)) && ScopeConstructor(h, s) == Some(true)
  }

  /** `typeof process === 'object' && process && process.platform === p`, read without throwing. */
  predicate ProcessPlatformIs(h: Host, p: string) {
    h.process.Some? && Readable(h, ProcessPlatformGetter) && h.process.value.platform == Some(p)
  }

  /** Reading `process.platform` throws, which ends an OS cascade with `false`. */
  predicate ProcessPlatformThrows(h: Host) {
    h.process.Some? && !Readable(h, ProcessPlatformGetter)
  }

  /** `s.indexOf(pat) !== -1`. */
  predicate Mentions(s: string, pat: string) {
    IndexOf(s, pat) != -1
  }

  // ----- accessors over `run_env` -----

  predicate IsBrowser(r: Env) { r.web }
  predicate IsNode(r: Env) { r.nodejs }
  predicate IsBun(r: Env) { r.bun }
  predicate IsDeno(r: Env) { r.deno }
  predicate IsElectron(r: Env) { r.electron }

  /** `isJsDom()`: the user agent contains `jsdom` somewhere. */
  function IsJsDom(h: Host): (b: bool)
    ensures b <==> exists i :: OccursAt(SafeUA(h), "jsdom", i)
  {
    Mentions(SafeUA(h), "jsdom")
  }

  /** `isWebWorker()`: the service-worker or web-worker flag, or a shared or dedicated worker scope. */
  predicate IsWebWorker(r: Env, h: Host) {
    r.serviceWorker || r.webWorker || InstOf(h, SharedScope) || InstOf(h, DedicatedScope)
  }

  /** `isDedicatedWorker()`: the dedicated scope, else the web-worker flag outside a shared scope. */
  predicate IsDedicatedWorker(r: Env, h: Host) {
    if InstOf(h, DedicatedScope) then true
    else r.webWorker && !InstOf(h, SharedScope)
  }

  /** `isSharedWorker()`. */
  predicate IsSharedWorker(h: Host) {
    InstOf(h, SharedScope)
  }

  /** `isServiceWorker()`: the service-worker flag or the service-worker scope. */
  predicate IsServiceWorker(r: Env, h: Host) {
    r.serviceWorker || InstOf(h, ServiceScope)
  }

  // ----- OS predicates: early-return cascades -----

  /** `isMacOs()`: platform `macOS` or `MacIntel`, ` Mac ` in the user agent, or `process.platform` `darwin`. */
  predicate IsMacOs(h: Host) {
    var pf, ua := Platform(h), SafeUA(h);
    if pf == "macOS" then true
    else if pf == "MacIntel" then true
    else if Mentions(ua, " Mac ") then true
    else ProcessPlatformIs(h, "darwin")
  }

  /** `isWindows()`: platform `Windows` or `Win32`, then `process.platform` `win32`, then ` Windows ` in the user agent. */
  predicate IsWindows(h: Host) {
    var pf, ua := Platform(h), SafeUA(h);
    if pf == "Windows" || pf == "Win32" then true
    else if ProcessPlatformThrows(h) then false
    else if ProcessPlatformIs(h, "win32") then true
    else Mentions(ua, " Windows ")
  }

  /** `isLinux()`: platform `Linux` or starting with it, ` Linux ` in the user agent, or `process.platform` `linux`. */
  predicate IsLinux(h: Host) {
    var pf, ua := Platform(h), SafeUA(h);
    if pf == "Linux" then true
    else if pf != "" && IndexOf(pf, "Linux") == 0 then true
    else if Mentions(ua, " Linux ") then true
    else ProcessPlatformIs(h, "linux")
  }

  /** `/iPad|iPhone|iPod/.test(plat)`. */
  predicate NamesAppleMobile(plat: string) {
    Mentions(plat, "iPad") || Mentions(plat, "iPhone") || Mentions(plat, "iPod")
  }

  /**
   * `isIos()`: platform `iOS`; or `navigator.platform` `MacIntel` with more
   * than one touch point (iPadOS); or a `navigator.platform` naming an iPad,
   * iPhone or iPod.
   */
  predicate IsIos(h: Host) {
    if Platform(h) == "iOS" then true
    else if h.navigator.None? then false
    else if !Readable(h, NavigatorPlatformGetter) then false
    else
      var nav := h.navigator.value;
      if nav.platform == Some("MacIntel") && !Readable(h, MaxTouchPointsGetter) then false
      else if nav.platform == Some("MacIntel") && nav.maxTouchPoints.Some? && nav.maxTouchPoints.value > 1 then true
      else
        var plat := if Truthy(nav.platform) then nav.platform.value else "";
        NamesAppleMobile(plat)
  }

  /** `isAndroid()`: platform `Android`, `navigator.platform` `Android`, ` Android ` in the user agent, or `process.platform` `android`. */
  predicate IsAndroid(h: Host) {
    var pf, ua := Platform(h), SafeUA(h);
    if pf == "Android" then true
    else if h.navigator.Some? && !Readable(h, NavigatorPlatformGetter) then false
    else if h.navigator.Some? && h.navigator.value.platform == Some("Android") then true
    else if Mentions(ua, " Android ") then true
    else ProcessPlatformIs(h, "android")
  }

  // ----- properties -----

  /** The runtime accessors report exactly the flags that detection computed from the host. */
  lemma AccessorsReportDetection(h: Host)
    ensures var r := Classify(h); var pv := ProcessVersions(h);
      && (IsBrowser(r) <==> WebFlag(h))
      && (IsNode(r) <==> NodejsFlag(pv))
      && (IsBun(r) <==> BunFlag(h))
      && (IsDeno(r) <==> DenoFlag(h))
      && (IsElectron(r) <==> ElectronFlag(pv))
  {
  }

  /** A process that reports Bun is never reported as Node. */
  lemma BunIsNotNode(h: Host)
    requires ProcessReportsBun(h)
    ensures !IsNode(Classify(h))
  {
  }

  /** Every dedicated or shared worker is also a web worker. */
  lemma DedicatedAndSharedAreWebWorkers(r: Env, h: Host)
    ensures IsDedicatedWorker(r, h) ==> IsWebWorker(r, h)
    ensures IsSharedWorker(h) ==> IsWebWorker(r, h)
  {
  }

  /** In a shared worker scope that is not a dedicated one, the web-worker fallback does not apply. */
  lemma SharedWithoutDedicatedIsNotDedicated(r: Env, h: Host)
    requires InstOf(h, SharedScope) && !InstOf(h, DedicatedScope)
    ensures !IsDedicatedWorker(r, h)
  {
  }

  /** A detected service worker is a web worker and a service worker for the façade, and never a dedicated one by the fallback. */
  lemma ServiceWorkerFacade(h: Host)
    requires ServiceWorkerFlag(h)
    ensures var r := Classify(h); IsWebWorker(r, h) && IsServiceWorker(r, h)
    ensures var r := Classify(h); IsDedicatedWorker(r, h) ==> InstOf(h, DedicatedScope)
  {
  }

  /** `safeUA()` is the user agent when there is one to read, and `''` otherwise. */
  lemma SafeUAIsUserAgentOrEmpty(h: Host)
    ensures h.navigator.None? || h.navigator.value.userAgent.None? || !Readable(h, UserAgentGetter) ==> SafeUA(h) == ""
    ensures SafeUA(h) != "" ==> h.navigator.Some? && h.navigator.value.userAgent == Some(SafeUA(h))
  {
  }

  /**
   * `platform()` prefers `userAgentData.platform`, falls back to
   * `navigator.platform`, and is `''` when neither is a non-empty string.
   */
  lemma PlatformPrecedence(h: Host)
    ensures h.navigator.Some? && Readable(h, UserAgentDataGetter) && h.navigator.value.userAgentData.Some?
            && Truthy(h.navigator.value.userAgentData.value.platform)
            ==> Some(Platform(h)) == h.navigator.value.userAgentData.value.platform
    ensures h.navigator.Some? && Readable(h, UserAgentDataGetter) && Readable(h, NavigatorPlatformGetter)
            && !(h.navigator.value.userAgentData.Some? && Truthy(h.navigator.value.userAgentData.value.platform))
            ==> Platform(h) == if Truthy(h.navigator.value.platform) then h.navigator.value.platform.value else ""
    ensures Platform(h) != "" ==>
              && h.navigator.Some?
              && (|| Some(Platform(h)) == h.navigator.value.platform
                  || (h.navigator.value.userAgentData.Some? && Some(Platform(h)) == h.navigator.value.userAgentData.value.platform))
  {
  }

  /** No string mentions a non-empty pattern when it is empty. */
  lemma EmptyMentionsNothing(pat: string)
    requires pat != ""
    ensures !Mentions("", pat)
  {
    assert !OccursAt("", pat, 0);
  }

  /** With no platform, no user agent, no `navigator.platform` and no `process.platform`, no OS predicate holds. */
  lemma NoSignalNoOs(h: Host)
    requires Platform(h) == "" && SafeUA(h) == ""
    requires h.navigator.None? || h.navigator.value.platform.None?
    requires h.process.None? || h.process.value.platform.None?
    ensures !IsMacOs(h) && !IsWindows(h) && !IsLinux(h) && !IsIos(h) && !IsAndroid(h)
  {
    EmptyMentionsNothing(" Mac ");
    EmptyMentionsNothing(" Windows ");
    EmptyMentionsNothing(" Linux ");
    EmptyMentionsNothing(" Android ");
    EmptyMentionsNothing("iPad");
    EmptyMentionsNothing("iPhone");
    EmptyMentionsNothing("iPod");
  }

  /** The OS predicates are not exclusive: a `MacIntel` platform with touch points is both macOS and iOS. */
  lemma MacIntelTouchIsMacAndIos(h: Host)
    requires h.navigator.Some?
    requires Readable(h, UserAgentDataGetter) && Readable(h, NavigatorPlatformGetter) && Readable(h, MaxTouchPointsGetter)
    requires h.navigator.value.userAgentData.None?
    requires h.navigator.value.platform == Some("MacIntel")
    requires h.navigator.value.maxTouchPoints.Some? && h.navigator.value.maxTouchPoints.value > 1
    ensures IsMacOs(h) && IsIos(h)
  {
  }

  /** A platform that starts with `Linux` (such as `Linux x86_64`) makes `isLinux()` hold. */
  lemma LinuxPlatformPrefix(h: Host)
    requires |Platform(h)| >= 5 && Platform(h)[..5] == "Linux"
    ensures IsLinux(h)
  {
    IndexOfZeroIsPrefix(Platform(h), "Linux");
  }

  /**
   * A user agent that names an OS between spaces makes that OS predicate
   * hold, except that a throwing `process.platform` getter ends
   * `isWindows()` first and a throwing `navigator.platform` getter ends
   * `isAndroid()` first.
   */
  lemma UserAgentNamesOs(h: Host, i: int)
    ensures OccursAt(SafeUA(h), " Mac ", i) ==> IsMacOs(h)
    ensures OccursAt(SafeUA(h), " Linux ", i) ==> IsLinux(h)
    ensures OccursAt(SafeUA(h), " Windows ", i) && !ProcessPlatformThrows(h) ==> IsWindows(h)
    ensures OccursAt(SafeUA(h), " Android ", i) && (h.navigator.Some? ==> Readable(h, NavigatorPlatformGetter)) ==> IsAndroid(h)
  {
  }

  /** A platform string in which none of `iPad`, `iPhone`, `iPod` is found fails the device regular expression. */
  lemma NamesNoAppleDevice(plat: string)
    requires AbsentFrom(plat, "iPad", 0) && AbsentFrom(plat, "iPhone", 0) && AbsentFrom(plat, "iPod", 0)
    ensures !NamesAppleMobile(plat)
  {
    IndexOfAbsent(plat, "iPad");
    IndexOfAbsent(plat, "iPhone");
    IndexOfAbsent(plat, "iPod");
  }

  /** A platform string that does not begin with `Linux` fails the `indexOf('Linux') === 0` test. */
  lemma DoesNotStartWithLinux(plat: string)
    requires |plat| < 5 || plat[0] != 'L'
    ensures IndexOf(plat, "Linux") != 0
  {
    IndexOfZeroIsPrefix(plat, "Linux");
    if |plat| >= 5 {
      assert plat[..5][0] == plat[0];
    }
  }

  /**
   * A `navigator.platform` naming an iPad, iPhone or iPod makes `isIos()`
   * hold, whatever `platform()` and the user agent say.
   */
  lemma AppleMobilePlatformIsIos(h: Host)
    requires h.navigator.Some? && Readable(h, NavigatorPlatformGetter)
    requires h.navigator.value.platform.Some? && NamesAppleMobile(h.navigator.value.platform.value)
    ensures IsIos(h)
  {
    MacIntelFacts();
    EmptyMentionsNothing("iPad");
    EmptyMentionsNothing("iPhone");
    EmptyMentionsNothing("iPod");
  }

  /** `Win32` names no Apple device and does not begin with `Linux`. */
  lemma Win32Facts()
    ensures !NamesAppleMobile("Win32") && IndexOf("Win32", "Linux") != 0
  {
    NamesNoAppleDevice("Win32");
    DoesNotStartWithLinux("Win32");
  }

  /** `MacIntel` names no Apple device and does not begin with `Linux`. */
  lemma MacIntelFacts()
    ensures !NamesAppleMobile("MacIntel") && IndexOf("MacIntel", "Linux") != 0
  {
    NamesNoAppleDevice("MacIntel");
    DoesNotStartWithLinux("MacIntel");
  }

  /** `Linux armv8l` begins with `Linux`. */
  lemma LinuxArmFacts()
    ensures IndexOf("Linux armv8l", "Linux") == 0
  {
    MatchesFromOccurs("Linux armv8l", "Linux", 0);
  }

  /** `iPhone` does not begin with `Linux`. */
  lemma IphoneFacts()
    ensures IndexOf("iPhone", "Linux") != 0
  {
    DoesNotStartWithLinux("iPhone");
  }

  /** `Android` names no Apple device and does not begin with `Linux`. */
  lemma AndroidFacts()
    ensures !NamesAppleMobile("Android") && IndexOf("Android", "Linux") != 0
  {
    NamesNoAppleDevice("Android");
    DoesNotStartWithLinux("Android");
  }

  /** `FreeBSD` names no Apple device and does not begin with `Linux`. */
  lemma FreeBsdFacts()
    ensures !NamesAppleMobile("FreeBSD") && IndexOf("FreeBSD", "Linux") != 0
  {
    NamesNoAppleDevice("FreeBSD");
    DoesNotStartWithLinux("FreeBSD");
  }

  /** The OS predicate that a `process.platform` value answers, if any. */
  predicate ProcessPlatformOnly(h: Host, p: string) {
    h.process.None? || (Readable(h, ProcessPlatformGetter) && h.process.value.platform == Some(p))
  }

  /**
   * A Windows host (platform and `navigator.platform` `Win32`, a user agent
   * naming no other OS, `process.platform` absent or `win32`) is Windows only.
   */
  lemma WindowsHostIsOnlyWindows(h: Host)
    requires Platform(h) == "Win32"
    requires h.navigator.Some? && h.navigator.value.platform == Some("Win32")
    requires !Mentions(SafeUA(h), " Mac ") && !Mentions(SafeUA(h), " Linux ") && !Mentions(SafeUA(h), " Android ")
    requires ProcessPlatformOnly(h, "win32")
    ensures IsWindows(h)
    ensures !IsMacOs(h) && !IsLinux(h) && !IsIos(h) && !IsAndroid(h)
  {
    Win32Facts();
  }

  /**
   * A desktop Mac (platform and `navigator.platform` `MacIntel` with at most
   * one touch point, a user agent naming no other OS, `process.platform`
   * absent or `darwin`) is macOS only.
   */
  lemma MacHostIsOnlyMacOs(h: Host)
    requires Platform(h) == "MacIntel"
    requires h.navigator.Some? && h.navigator.value.platform == Some("MacIntel")
    requires h.navigator.value.maxTouchPoints.None? || h.navigator.value.maxTouchPoints.value <= 1
    requires !Mentions(SafeUA(h), " Windows ") && !Mentions(SafeUA(h), " Linux ") && !Mentions(SafeUA(h), " Android ")
    requires ProcessPlatformOnly(h, "darwin")
    ensures IsMacOs(h)
    ensures !IsWindows(h) && !IsLinux(h) && !IsIos(h) && !IsAndroid(h)
  {
    MacIntelFacts();
  }

  /**
   * A host whose platform and `navigator.platform` begin with `Linux` and
   * name no Apple device, whose user agent names no other OS and whose
   * `process.platform` is absent or `linux`, is Linux only.
   */
  lemma LinuxPrefixHostIsOnlyLinux(h: Host)
    requires IndexOf(Platform(h), "Linux") == 0 && !NamesAppleMobile(Platform(h))
    requires h.navigator.Some? && h.navigator.value.platform == Some(Platform(h))
    requires !Mentions(SafeUA(h), " Mac ") && !Mentions(SafeUA(h), " Windows ") && !Mentions(SafeUA(h), " Android ")
    requires ProcessPlatformOnly(h, "linux")
    ensures IsLinux(h)
    ensures !IsMacOs(h) && !IsWindows(h) && !IsIos(h) && !IsAndroid(h)
  {
    assert Platform(h)[..5][0] == 'L';
  }

  /**
   * An iPhone (platform and `navigator.platform` `iPhone`, a user agent
   * naming no other OS, no `process`) is iOS only.
   */
  lemma IphoneHostIsOnlyIos(h: Host)
    requires Platform(h) == "iPhone"
    requires h.navigator.Some? && h.navigator.value.platform == Some("iPhone") && Readable(h, NavigatorPlatformGetter)
    requires !Mentions(SafeUA(h), " Mac ") && !Mentions(SafeUA(h), " Windows ")
    requires !Mentions(SafeUA(h), " Linux ") && !Mentions(SafeUA(h), " Android ")
    requires h.process.None?
    ensures IsIos(h)
    ensures !IsMacOs(h) && !IsWindows(h) && !IsLinux(h) && !IsAndroid(h)
  {
    IphoneFacts();
    AppleMobilePlatformIsIos(h);
  }

  /**
   * An Android device (platform and `navigator.platform` `Android`, a user
   * agent naming no other OS, `process.platform` absent or `android`) is
   * Android only.
   */
  lemma AndroidHostIsOnlyAndroid(h: Host)
    requires Platform(h) == "Android"
    requires h.navigator.Some? && h.navigator.value.platform == Some("Android")
    requires !Mentions(SafeUA(h), " Mac ") && !Mentions(SafeUA(h), " Windows ") && !Mentions(SafeUA(h), " Linux ")
    requires ProcessPlatformOnly(h, "android")
    ensures IsAndroid(h)
    ensures !IsMacOs(h) && !IsWindows(h) && !IsLinux(h) && !IsIos(h)
  {
    AndroidFacts();
  }

  /**
   * A FreeBSD host (platform and `navigator.platform` `FreeBSD`, a user
   * agent naming none of the four, `process.platform` absent or `freebsd`)
   * satisfies no OS predicate.
   */
  lemma FreeBsdHostIsNoOs(h: Host)
    requires Platform(h) == "FreeBSD"
    requires h.navigator.Some? && h.navigator.value.platform == Some("FreeBSD")
    requires !Mentions(SafeUA(h), " Mac ") && !Mentions(SafeUA(h), " Windows ")
    requires !Mentions(SafeUA(h), " Linux ") && !Mentions(SafeUA(h), " Android ")
    requires ProcessPlatformOnly(h, "freebsd")
    ensures !IsMacOs(h) && !IsWindows(h) && !IsLinux(h) && !IsIos(h) && !IsAndroid(h)
  {
    FreeBsdFacts();
  }

  /** An Android Chrome user agent names Android between spaces. */
  lemma AndroidUserAgentFacts()
    ensures OccursAt("Mozilla/5.0 (Linux; Android 14; Pixel 8)", " Android ", 19)
  {
    MatchesFromOccurs("Mozilla/5.0 (Linux; Android 14; Pixel 8)", " Android ", 19);
  }

  /** Mobile Safari's user agent names Mac between spaces. */
  lemma IphoneUserAgentFacts()
    ensures OccursAt("Mozilla/5.0 (iPhone; CPU iPhone OS 17_0 like Mac OS X)", " Mac ", 44)
  {
    MatchesFromOccurs("Mozilla/5.0 (iPhone; CPU iPhone OS 17_0 like Mac OS X)", " Mac ", 44);
  }

  /** Mobile Safari's user agent says `like Mac OS X`, so an iPhone is both iOS and macOS. */
  lemma IphoneUserAgentIsAlsoMacOs(h: Host)
    requires SafeUA(h) == "Mozilla/5.0 (iPhone; CPU iPhone OS 17_0 like Mac OS X)"
    requires h.navigator.Some? && h.navigator.value.platform == Some("iPhone") && Readable(h, NavigatorPlatformGetter)
    ensures IsIos(h) && IsMacOs(h)
  {
    AppleMobilePlatformIsIos(h);
    IphoneUserAgentFacts();
    UserAgentNamesOs(h, 44);
  }

  /** Android browsers whose `navigator.platform` is `Linux armv8l` are both Linux and Android. */
  lemma AndroidLinuxPlatformIsBoth(h: Host)
    requires Platform(h) == "Linux armv8l"
    requires SafeUA(h) == "Mozilla/5.0 (Linux; Android 14; Pixel 8)"
    requires h.navigator.Some? ==> Readable(h, NavigatorPlatformGetter)
    ensures IsLinux(h) && IsAndroid(h)
  {
    LinuxArmFacts();
    AndroidUserAgentFacts();
    UserAgentNamesOs(h, 19);
  }

  /**
   * `isWindows()` consults `process.platform` before the user agent, so a
   * throwing `process.platform` getter hides a Windows user agent.
   */
  lemma WindowsReadsProcessBeforeUserAgent(h: Host)
    requires Platform(h) != "Windows" && Platform(h) != "Win32"
    requires ProcessPlatformThrows(h)
    ensures !IsWindows(h)
  {
  }
}

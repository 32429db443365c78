/**
 * Device tier detection and the configuration record derived from it
 * (js/performance-config.js). The browser's `navigator` object is an input.
 */
module PerformanceConfig {
  import opened JsValues

  /** The parts of `navigator` that the detection reads. */
  datatype Navigator = Navigator(
    hardwareConcurrency: Option<int>,
    userAgent: string,
    deviceMemory: Option<real>)

  /** The record stored as `window.PERF_CONFIG`. */
  datatype Config = Config(
    fallingPetalsCount: nat,
    targetFPS: nat,
    particleCount: nat,
    enableComplexAnimations: bool,
    enableBackgroundCanvas: bool,
    enableTreeSway: bool,
    lazyLoadThreshold: real,
    debounceDelay: nat,
    throttleDelay: nat)

  /** The alternatives of the mobile user-agent pattern, in pattern order. */
  const MobileWords: seq<string> := ["Android", "webOS", "iPhone", "iPad", "iPod", "BlackBerry"]

  /**
   * Case canonicalisation of a non-unicode `/i` pattern, on ASCII: lower-case
   * letters compare upper-cased. The flag also upper-cases non-ASCII letters,
   * but never onto an ASCII character, so for the all-ASCII `MobileWords`
   * keeping non-ASCII characters as they are decides the same matches.
   */
  function Canon(c: char): (r: char)
    ensures 'a' <= c <= 'z' ==> 'A' <= r <= 'Z' && r as int == c as int - 32
    ensures !('a' <= c <= 'z') ==> r == c
  {
    if 'a' <= c <= 'z' then (c as int - 32) as char else c
  }

  /** `s` begins with `w`, compared case-insensitively. */
  predicate StartsFolded(s: string, w: string) {
    |w| <= |s| && forall j :: 0 <= j < |w| ==> Canon(s[j]) == Canon(w[j])
  }

  /** The regular-expression search for `w` in `s`, scanning start positions left to right. */
  function ContainsFolded(s: string, w: string): bool
    decreases |s|
  {
    if |s| < |w| then false
    else StartsFolded(s, w) || ContainsFolded(s[1..], w)
  }

  /** The independent statement of the search: some position of `s` starts a folded copy of `w`. */
  ghost predicate OccursFolded(s: string, w: string) {
    exists i :: 0 <= i <= |s| && StartsFolded(s[i..], w)
  }

  lemma {:induction false} ContainsFoldedIsSearch(s: string, w: string)
    ensures ContainsFolded(s, w) <==> OccursFolded(s, w)
    decreases |s|
  {
    if |s| < |w| {
    } else if StartsFolded(s, w) {
      assert s[0..] == s;
    } else {
      ContainsFoldedIsSearch(s[1..], w);
      if OccursFolded(s, w) {
        var i :| 0 <= i <= |s| && StartsFolded(s[i..], w);
        assert i != 0 by { assert s[0..] == s; }
        assert s[1..][i - 1..] == s[i..];
      }
      if OccursFolded(s[1..], w) {
        var i :| 0 <= i <= |s[1..]| && StartsFolded(s[1..][i..], w);
        assert s[1..][i..] == s[i + 1..];
      }
    }
  }

  /** `/Android|webOS|iPhone|iPad|iPod|BlackBerry/i.test(userAgent)` */
  function IsMobile(userAgent: string): bool {
    exists k :: 0 <= k < |MobileWords| && ContainsFolded(userAgent, MobileWords[k])
  }

  /** The core count with its `|| 2` default. */
  function Cores(nav: Navigator): int {
    IntOr(nav.hardwareConcurrency, 2)
  }

  /** The device memory with its `|| 4` default. */
  function Memory(nav: Navigator): real {
    RealOr(nav.deviceMemory, 4.0)
  }

  /** `isLowEnd()` */
  function IsLowEnd(nav: Navigator): bool {
    Cores(nav) <= 2 || IsMobile(nav.userAgent) || Memory(nav) < 4.0
  }

  /** `getConfig()` for a device whose tier is `lowEnd`. */
  function GetConfig(lowEnd: bool): (c: Config)
    ensures c.enableComplexAnimations == c.enableBackgroundCanvas == c.enableTreeSway == !lowEnd
    ensures c.fallingPetalsCount == (if lowEnd then 15 else 30)
    ensures c.targetFPS == (if lowEnd then 30 else 60)
    ensures c.particleCount == (if lowEnd then 30 else 50)
  {
    Config(
      fallingPetalsCount := if lowEnd then 15 else 30,
      targetFPS := if lowEnd then 30 else 60,
      particleCount := if lowEnd then 30 else 50,
      enableComplexAnimations := !lowEnd,
      enableBackgroundCanvas := !lowEnd,
      enableTreeSway := !lowEnd,
      lazyLoadThreshold := if lowEnd then 0.1 else 0.01,
      debounceDelay := if lowEnd then 300 else 150,
      throttleDelay := if lowEnd then 200 else 100)
  }

  /**
   * `apply()`: the configuration it stores in `window.PERF_CONFIG` and returns,
   * and the root element's class list after it runs.
   */
  function Apply(nav: Navigator, rootClasses: set<string>): (r: (Config, set<string>))
    ensures r.0 == GetConfig(IsLowEnd(nav))
    ensures r.1 == if IsLowEnd(nav) then rootClasses + {"low-end-device"} else rootClasses
  {
    var config := GetConfig(IsLowEnd(nav));
    (config, if IsLowEnd(nav) then rootClasses + {"low-end-device"} else rootClasses)
  }

  /** A missing or zero core count alone classifies the device as low-end. */
  lemma MissingCoresIsLowEnd(nav: Navigator)
    requires nav.hardwareConcurrency.None? || nav.hardwareConcurrency == Some(0)
    ensures IsLowEnd(nav)
  {
  }

  /** A mobile word anywhere in the user agent, in any ASCII letter case, makes the device low-end. */
  lemma MobileWordIsLowEnd(nav: Navigator, k: nat, i: nat)
    requires k < |MobileWords| && i <= |nav.userAgent|
    requires StartsFolded(nav.userAgent[i..], MobileWords[k])
    ensures IsLowEnd(nav)
  {
    ContainsFoldedIsSearch(nav.userAgent, MobileWords[k]);
  }

  /** A device with more than two cores, at least 4 GB and no mobile word is the full tier. */
  lemma DesktopIsNotLowEnd(nav: Navigator)
    requires Cores(nav) > 2 && Memory(nav) >= 4.0
    requires forall k, i :: 0 <= k < |MobileWords| && 0 <= i <= |nav.userAgent| ==>
               !StartsFolded(nav.userAgent[i..], MobileWords[k])
    ensures !IsLowEnd(nav)
  {
    forall k | 0 <= k < |MobileWords|
      ensures !ContainsFolded(nav.userAgent, MobileWords[k])
    {
      ContainsFoldedIsSearch(nav.userAgent, MobileWords[k]);
    }
  }

  /** The low-end configuration asks for no more work than the full one, on every knob. */
  lemma LowEndIsCheaper()
    ensures var lo, hi := GetConfig(true), GetConfig(false);
      lo.fallingPetalsCount < hi.fallingPetalsCount && lo.targetFPS < hi.targetFPS &&
      lo.particleCount < hi.particleCount &&
      lo.lazyLoadThreshold > hi.lazyLoadThreshold &&
      lo.debounceDelay > hi.debounceDelay && lo.throttleDelay > hi.throttleDelay &&
      !lo.enableTreeSway && hi.enableTreeSway
  {
  }
}

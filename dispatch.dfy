/**
 * Device-capability detection and presentation-mode dispatch (js/main.js).
 *
 * The user agent is lower-cased over ASCII and searched, unanchored, for the
 * platform tokens; the WebXR API's presence is an input. The click handler
 * then takes exactly one of three branches.
 */
module Dispatch {

  // ---------------------------------------------------------------------------
  // Lower-casing
  // ---------------------------------------------------------------------------

  predicate IsUpperAscii(c: char) { 'A' <= c <= 'Z' }

  /** One character of `String.prototype.toLowerCase`, restricted to ASCII. */
  function LowerChar(c: char): (r: char)
    ensures !IsUpperAscii(r)
    ensures !IsUpperAscii(c) ==> r == c
    ensures IsUpperAscii(c) ==> r as int - c as int == 'a' as int - 'A' as int
  {
    if IsUpperAscii(c) then (c as int + ('a' as int - 'A' as int)) as char else c
  }

  /** `s.toLowerCase()` over ASCII: same length, each character lowered in place. */
  function Lower(s: string): (r: string)
    ensures |r| == |s|
    ensures forall i :: 0 <= i < |s| ==> r[i] == LowerChar(s[i])
  {
    if s == [] then [] else [LowerChar(s[0])] + Lower(s[1..])
  }

  /** Lower-casing twice is lower-casing once. */
  lemma LowerIdempotent(s: string)
    ensures Lower(Lower(s)) == Lower(s)
  {
    var once := Lower(s);
    var twice := Lower(once);
    forall i | 0 <= i < |s|
      ensures twice[i] == once[i]
    {
      assert !IsUpperAscii(once[i]);
    }
  }

  // ---------------------------------------------------------------------------
  // Unanchored pattern test
  // ---------------------------------------------------------------------------

  /** `p` occurs in `s` starting at index `i`. */
  predicate OccursAt(s: string, p: string, i: nat)
  {
    i + |p| <= |s| && s[i..i + |p|] == p
  }

  /** `p` occurs somewhere in `s`: the meaning of an unanchored regular expression without metacharacters. */
  ghost predicate Contains(s: string, p: string)
  {
    exists i: nat :: OccursAt(s, p, i)
  }

  /** When `p` is not at the front of `s`, its occurrences in `s` are those in `s[1..]`, shifted by one. */
  lemma ContainsInTail(s: string, p: string)
    requires |s| > 0 && !OccursAt(s, p, 0)
    ensures Contains(s, p) <==> Contains(s[1..], p)
  {
    if Contains(s, p) {
      var i: nat :| OccursAt(s, p, i);
      assert i > 0;
      assert s[1..][i - 1..i - 1 + |p|] == s[i..i + |p|];
      assert OccursAt(s[1..], p, i - 1);
    }
    if Contains(s[1..], p) {
      var j: nat :| OccursAt(s[1..], p, j);
      assert s[j + 1..j + 1 + |p|] == s[1..][j..j + |p|];
      assert OccursAt(s, p, j + 1);
    }
  }

  /** `RegExp.prototype.test` for a literal pattern: a left-to-right scan of `s`. */
  function Test(s: string, p: string): (r: bool)
    ensures r <==> Contains(s, p)
    decreases |s|
  {
    if |p| > |s| then
      false
    else if s[..|p|] == p then
      assert OccursAt(s, p, 0);
      true
    else
      ContainsInTail(s, p);
      Test(s[1..], p)
  }

  /** A pattern found in `s` is found, lowered, at the same place in the lowered `s`. */
  lemma LowerKeepsOccurrence(s: string, p: string, i: nat)
    requires OccursAt(s, p, i)
    ensures OccursAt(Lower(s), Lower(p), i)
  {
    var ls, lp := Lower(s), Lower(p);
    forall k | 0 <= k < |p|
      ensures ls[i..i + |p|][k] == lp[k]
    {
      assert s[i..i + |p|][k] == p[k];
    }
  }

  // ---------------------------------------------------------------------------
  // detectDeviceCapabilities
  // ---------------------------------------------------------------------------

  datatype Capabilities = Capabilities(isIOS: bool, isAndroid: bool, isWebXRSupported: bool)

  /** The lowered user agent names an Apple handheld: `/iphone|ipad|ipod/`. */
  ghost predicate NamesAppleHandheld(ua: string)
  {
    Contains(Lower(ua), "iphone") || Contains(Lower(ua), "ipad") || Contains(Lower(ua), "ipod")
  }

  /** The lowered user agent names Android: `/android/`. */
  ghost predicate NamesAndroid(ua: string)
  {
    Contains(Lower(ua), "android")
  }

  /**
   * The three booleans of detectDeviceCapabilities. `xrApiPresent` stands for
   * `'xr' in navigator && 'isSessionSupported' in navigator.xr`.
   */
  function DetectDeviceCapabilities(userAgent: string, xrApiPresent: bool): (c: Capabilities)
    ensures c.isIOS <==> NamesAppleHandheld(userAgent)
    ensures c.isAndroid <==> NamesAndroid(userAgent)
    ensures c.isWebXRSupported <==> xrApiPresent
  {
    var ua := Lower(userAgent);
    Capabilities(Test(ua, "iphone") || Test(ua, "ipad") || Test(ua, "ipod"), Test(ua, "android"), xrApiPresent)
  }

  // ---------------------------------------------------------------------------
  // Mode selection
  // ---------------------------------------------------------------------------

  /** The three mutually exclusive presentation modes. */
  datatype Mode = QuickLook | ImmersiveAR | FallbackViewer

  /** The branch of the click handler taken for the detected capabilities. */
  function Branch(c: Capabilities): Mode
  {
    if c.isIOS then QuickLook
    else if c.isAndroid && c.isWebXRSupported then ImmersiveAR
    else FallbackViewer
  }

  /**
   * The mode finally presented: the click handler's branch, where a negative
   * `isSessionSupported('immersive-ar')` probe inside the WebXR branch hands
   * over to the fallback viewer.
   */
  function SelectMode(ua: string, hasXrApi: bool, arSupported: bool): (m: Mode)
    ensures m == QuickLook <==> NamesAppleHandheld(ua)
    ensures m == ImmersiveAR <==> !NamesAppleHandheld(ua) && NamesAndroid(ua) && hasXrApi && arSupported
    ensures m == FallbackViewer <==> !NamesAppleHandheld(ua) && !(NamesAndroid(ua) && hasXrApi && arSupported)
  {
    match Branch(DetectDeviceCapabilities(ua, hasXrApi))
    case ImmersiveAR => if arSupported then ImmersiveAR else FallbackViewer
    case other => other
  }

  /** Dispatch does not depend on the case of the user agent. */
  lemma SelectModeIgnoresCase(ua: string, hasXrApi: bool, arSupported: bool)
    ensures SelectMode(Lower(ua), hasXrApi, arSupported) == SelectMode(ua, hasXrApi, arSupported)
  {
    LowerIdempotent(ua);
  }

  /**
   * A user agent carrying an Apple handheld token in any case, as real ones
   * write it ("iPhone", "iPad", "iPod"), selects Quick Look whatever the
   * Android and WebXR inputs are.
   */
  lemma AppleTokenSelectsQuickLook(ua: string, hasXrApi: bool, arSupported: bool, token: string, i: nat)
    requires Lower(token) == "iphone" || Lower(token) == "ipad" || Lower(token) == "ipod"
    requires OccursAt(ua, token, i)
    ensures SelectMode(ua, hasXrApi, arSupported) == QuickLook
  {
    LowerKeepsOccurrence(ua, token, i);
  }

  /** The tokens real Apple user agents carry are among those the lemma above covers. */
  lemma AppleTokensLowerToPatterns()
    ensures Lower("iPhone") == "iphone" && Lower("iPad") == "ipad" && Lower("iPod") == "ipod"
  {
  }

  /**
   * "Android" in any case, on a device that is not an Apple handheld, selects
   * the immersive session exactly when the API is present and the probe passes.
   */
  lemma AndroidTokenSelectsImmersive(ua: string, hasXrApi: bool, arSupported: bool, i: nat)
    requires OccursAt(ua, "Android", i)
    requires !NamesAppleHandheld(ua)
    ensures SelectMode(ua, hasXrApi, arSupported) == ImmersiveAR <==> hasXrApi && arSupported
  {
    LowerKeepsOccurrence(ua, "Android", i);
    assert Lower("Android") == "android";
  }
}

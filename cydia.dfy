/** The tweak switches of the Cydia screen (CydiaApp in components/Apps.tsx). */
module Cydia {
  import opened Catalog
  import DeviceApp

  /** The ids of the four tweaks the screen lists. */
  const TweakIds: set<string> := {"winterboard", "battery", "darkmode", "ics"}

  /** How many of the four switches differ between two tweak states. */
  function Differences(a: Tweaks, b: Tweaks): (n: nat)
    ensures n <= 4 && (n == 0 <==> a == b)
  {
    (if a.showBatteryPercent != b.showBatteryPercent then 1 else 0)
    + (if a.flatIcons != b.flatIcons then 1 else 0)
    + (if a.darkMode != b.darkMode then 1 else 0)
    + (if a.icsTheme != b.icsTheme then 1 else 0)
  }

  /** toggleTweak: flips the switch the id names and no other; an unknown id changes nothing. */
  function ToggleTweak(t: Tweaks, id: string): (r: Tweaks)
    ensures Differences(t, r) == if id in TweakIds then 1 else 0
    ensures id == "winterboard" ==> r.flatIcons != t.flatIcons
    ensures id == "battery" ==> r.showBatteryPercent != t.showBatteryPercent
    ensures id == "darkmode" ==> r.darkMode != t.darkMode
    ensures id == "ics" ==> r.icsTheme != t.icsTheme
  {
    if id == "winterboard" then t.(flatIcons := !t.flatIcons)
    else if id == "battery" then t.(showBatteryPercent := !t.showBatteryPercent)
    else if id == "darkmode" then t.(darkMode := !t.darkMode)
    else if id == "ics" then t.(icsTheme := !t.icsTheme)
    else t
  }

  /** Toggling the same tweak twice restores the tweaks. */
  lemma ToggleTwiceRestores(t: Tweaks, id: string)
    ensures ToggleTweak(ToggleTweak(t, id), id) == t
  {
  }

  /** Toggling two tweaks gives the same result in either order. */
  lemma TogglesCommute(t: Tweaks, a: string, b: string)
    ensures ToggleTweak(ToggleTweak(t, a), b) == ToggleTweak(ToggleTweak(t, b), a)
  {
  }

  /** The switch handler: four independent tests of the id, each storing a new tweaks record. */
  method ToggleOnDevice(device: DeviceApp.Controller, id: string)
    requires device.Valid()
    modifies device`tweaks
    ensures device.Valid()
    ensures device.tweaks == ToggleTweak(old(device.tweaks), id)
  {
    var tweaks := device.tweaks;
    if id == "winterboard" {
      device.tweaks := tweaks.(flatIcons := !tweaks.flatIcons);
    }
    if id == "battery" {
      device.tweaks := tweaks.(showBatteryPercent := !tweaks.showBatteryPercent);
    }
    if id == "darkmode" {
      device.tweaks := tweaks.(darkMode := !tweaks.darkMode);
    }
    if id == "ics" {
      device.tweaks := tweaks.(icsTheme := !tweaks.icsTheme);
    }
  }
}

/**
 * The records App.tsx keeps besides the power state: the app catalog, the home-screen
 * widgets and the Cydia tweaks (AppDefinition, WidgetInstance and TweaksState in types.ts),
 * with the list updates App.tsx performs on them.
 */
module Catalog {

  /** An entry of the app catalog (the icon, version, size and description strings are left out). */
  datatype AppDefinition = AppDefinition(id: string, name: string, installed: bool, system: bool)

  datatype WidgetType = SearchWidget | ClockWidget | PowerWidget

  datatype WidgetInstance = WidgetInstance(id: string, kind: WidgetType, x: int, y: int)

  datatype Tweaks = Tweaks(showBatteryPercent: bool, flatIcons: bool, darkMode: bool, icsTheme: bool)

  const DefaultTweaks: Tweaks := Tweaks(false, false, true, false)

  /** The catalog the device starts with: fifteen installed system apps and eight Market apps. */
  function InitialApps(): (r: seq<AppDefinition>)
    ensures |r| == 23
    ensures forall i :: 0 <= i < |r| ==> (r[i].system <==> i < 15) && (r[i].installed <==> r[i].system)
    ensures forall i, j :: 0 <= i < j < |r| ==> r[i].id != r[j].id
  {
    [ AppDefinition("phone", "Phone", true, true),
      AppDefinition("contacts", "Contacts", true, true),
      AppDefinition("browser", "Browser", true, true),
      AppDefinition("messages", "Messaging", true, true),
      AppDefinition("market", "Market", true, true),
      AppDefinition("settings", "Settings", true, true),
      AppDefinition("camera", "Camera", true, true),
      AppDefinition("gallery", "Gallery", true, true),
      AppDefinition("music", "Music", true, true),
      AppDefinition("maps", "Maps", true, true),
      AppDefinition("email", "Email", true, true),
      AppDefinition("calendar", "Calendar", true, true),
      AppDefinition("clock", "Clock", true, true),
      AppDefinition("calculator", "Calculator", true, true),
      AppDefinition("recorder", "Recorder", true, true),
      AppDefinition("launcher44", "Launcher 4.4", false, false),
      AppDefinition("holo", "Holo Launcher", false, false),
      AppDefinition("magisk", "Magisk", false, false),
      AppDefinition("cydia", "Cydia", false, false),
      AppDefinition("whatsapp", "WhatsApp", false, false),
      AppDefinition("vk", "VK", false, false),
      AppDefinition("gemini", "Gemini 3.0", false, false),
      AppDefinition("geometry", "Geometry Dash", false, false) ]
  }

  /** installApp: every entry with the given id becomes installed; nothing else changes. */
  function Install(apps: seq<AppDefinition>, id: string): (r: seq<AppDefinition>)
    ensures |r| == |apps|
    ensures forall i :: 0 <= i < |r| ==>
      && r[i].id == apps[i].id && r[i].name == apps[i].name && r[i].system == apps[i].system
      && (r[i].installed <==> apps[i].installed || apps[i].id == id)
  {
    if apps == [] then []
    else
      var head := if apps[0].id == id then apps[0].(installed := true) else apps[0];
      [head] + Install(apps[1..], id)
  }

  /** Installing an app twice is the same as installing it once. */
  lemma {:induction false} InstallIdempotent(apps: seq<AppDefinition>, id: string)
    ensures Install(Install(apps, id), id) == Install(apps, id)
  {
    var once := Install(apps, id);
    var twice := Install(once, id);
    assert |twice| == |once|;
    forall i | 0 <= i < |once| ensures twice[i] == once[i] {
    }
  }

  /** `a` is `b` with some elements left out, the rest kept in their order. */
  predicate IsSubsequence<T(==)>(a: seq<T>, b: seq<T>)
    decreases |b|
  {
    a == [] || (b != [] && if a[0] == b[0] then IsSubsequence(a[1..], b[1..]) else IsSubsequence(a, b[1..]))
  }

  /** Keeping the same first element on both sides keeps a subsequence. */
  lemma SubsequenceKeep<T>(a: seq<T>, b: seq<T>, x: T)
    requires IsSubsequence(a, b)
    ensures IsSubsequence([x] + a, [x] + b)
  {
    assert ([x] + a)[1..] == a;
    assert ([x] + b)[1..] == b;
  }

  /** An element in front of `b` that `a` does not start with may be skipped. */
  lemma SubsequenceSkip<T>(a: seq<T>, b: seq<T>, x: T)
    requires IsSubsequence(a, b) && (a == [] || a[0] != x)
    ensures IsSubsequence(a, [x] + b)
  {
    assert ([x] + b)[1..] == b;
  }

  /** A widget with the id in front of `ws` is dropped: `rest`, the result for the tail, is the result for `ws`. */
  lemma DropHead(ws: seq<WidgetInstance>, id: string, rest: seq<WidgetInstance>)
    requires ws != [] && ws[0].id == id
    requires IsSubsequence(rest, ws[1..])
    requires forall w :: multiset(rest)[w] == if w.id == id then 0 else multiset(ws[1..])[w]
    requires forall w :: w in rest <==> w in ws[1..] && w.id != id
    ensures IsSubsequence(rest, ws)
    ensures forall w :: multiset(rest)[w] == if w.id == id then 0 else multiset(ws)[w]
    ensures forall w :: w in rest <==> w in ws && w.id != id
  {
    assert ws == [ws[0]] + ws[1..];
    assert multiset(ws) == multiset{ws[0]} + multiset(ws[1..]);
    assert rest != [] ==> rest[0] in rest;
    SubsequenceSkip(rest, ws[1..], ws[0]);
  }

  /** A widget with another id in front of `ws` is kept in front of `rest`, the result for the tail. */
  lemma KeepHead(ws: seq<WidgetInstance>, id: string, rest: seq<WidgetInstance>)
    requires ws != [] && ws[0].id != id
    requires IsSubsequence(rest, ws[1..])
    requires forall w :: multiset(rest)[w] == if w.id == id then 0 else multiset(ws[1..])[w]
    requires forall w :: w in rest <==> w in ws[1..] && w.id != id
    requires |rest| < |ws|
    requires (forall i :: 0 <= i < |ws[1..]| ==> ws[1..][i].id != id) ==> rest == ws[1..]
    ensures IsSubsequence([ws[0]] + rest, ws)
    ensures forall w :: multiset([ws[0]] + rest)[w] == if w.id == id then 0 else multiset(ws)[w]
    ensures forall w :: w in [ws[0]] + rest <==> w in ws && w.id != id
    ensures |[ws[0]] + rest| <= |ws|
    ensures (forall i :: 0 <= i < |ws| ==> ws[i].id != id) ==> [ws[0]] + rest == ws
  {
    assert ws == [ws[0]] + ws[1..];
    assert multiset(ws) == multiset{ws[0]} + multiset(ws[1..]);
    assert multiset([ws[0]] + rest) == multiset{ws[0]} + multiset(rest);
    SubsequenceKeep(rest, ws[1..], ws[0]);
  }

  /** removeWidget: keeps, in order, exactly the widgets whose id differs. */
  function RemoveWidget(ws: seq<WidgetInstance>, id: string): (r: seq<WidgetInstance>)
    ensures IsSubsequence(r, ws)
    ensures forall w :: multiset(r)[w] == if w.id == id then 0 else multiset(ws)[w]
    ensures forall w :: w in r <==> w in ws && w.id != id
    ensures |r| <= |ws|
    ensures (forall i :: 0 <= i < |ws| ==> ws[i].id != id) ==> r == ws
  {
    if ws == [] then []
    else
      var rest := RemoveWidget(ws[1..], id);
      if ws[0].id == id then
        DropHead(ws, id, rest);
        rest
      else
        KeepHead(ws, id, rest);
        [ws[0]] + rest
  }

  /** Removing a widget just added under a fresh id gives back the widgets there were before. */
  lemma {:induction false} AddThenRemoveWidget(ws: seq<WidgetInstance>, w: WidgetInstance)
    requires forall i :: 0 <= i < |ws| ==> ws[i].id != w.id
    ensures RemoveWidget(ws + [w], w.id) == ws
  {
    if ws == [] {
      assert [w][1..] == [];
    } else {
      assert (ws + [w])[1..] == ws[1..] + [w];
      AddThenRemoveWidget(ws[1..], w);
    }
  }

  const BlackWallpaper: string := "bg-black"
  const BlueWallpaper: string := "bg-gradient-to-br from-blue-900 to-black"

  /** The Wallpaper item of the home menu: black becomes the blue gradient, anything else black. */
  function NextMenuWallpaper(w: string): (r: string)
    ensures r == BlackWallpaper || r == BlueWallpaper
    ensures r == BlueWallpaper <==> w == BlackWallpaper
  {
    if w == BlackWallpaper then BlueWallpaper else BlackWallpaper
  }

  /** After two uses of the item the wallpaper is one of the two built-in ones, and black again if it was. */
  lemma MenuWallpaperTwice(w: string)
    ensures NextMenuWallpaper(NextMenuWallpaper(w)) == if w == BlackWallpaper then w else BlueWallpaper
  {
  }
}

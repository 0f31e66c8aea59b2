/**
 * The device controller held in React state by the App component (App.tsx): one
 * field per state variable and one method per event. Timers, intervals and effects
 * are explicit event methods that the surrounding event loop calls; each method is
 * proved to follow the matching transition function of DeviceModel.
 */
module DeviceApp {
  import opened Wrappers
  import opened DeviceModel
  import opened Catalog

  class Controller {
    var state: SystemState
    var battery: int
    var charging: bool
    var app: Option<string>
    var menuOpen: bool
    var drawerOpen: bool
    var keyboardOpen: bool
    var shadeOpen: bool
    var notices: nat
    var now: nat
    var timers: seq<BootTimer>
    var cues: seq<Cue>
    var apps: seq<AppDefinition>
    var widgets: seq<WidgetInstance>
    var tweaks: Tweaks
    var galleryImages: seq<string>
    var wallpaper: string

    /** The power/boot/app-lifecycle part of the state, as a value. */
    ghost function Snapshot(): Device
      reads this
    {
      Device(state, battery, charging, app, menuOpen, drawerOpen, keyboardOpen, shadeOpen,
             notices, now, timers, cues)
    }

    ghost predicate Valid()
      reads this
    {
      DeviceModel.Valid(Snapshot())
    }

    constructor ()
      ensures Valid() && Snapshot() == Initial()
      ensures apps == InitialApps() && widgets == [WidgetInstance("1", SearchWidget, 0, 0)]
      ensures tweaks == DefaultTweaks && galleryImages == [] && wallpaper == "bg-black"
    {
      state := Recovery;
      battery := InitialBattery;
      charging := false;
      app := None;
      menuOpen, drawerOpen, keyboardOpen, shadeOpen := false, false, false, false;
      notices, now, timers, cues := 0, 0, [], [];
      apps := InitialApps();
      widgets := [WidgetInstance("1", SearchWidget, 0, 0)];
      tweaks := DefaultTweaks;
      galleryImages := [];
      wallpaper := "bg-black";
    }

    /** handleHardwareKey: the click cue, then the power-up paths, then the key switch. */
    method HandleHardwareKey(key: HardwareKey)
      requires Valid()
      modifies this`state, this`app, this`menuOpen, this`drawerOpen, this`shadeOpen,
               this`notices, this`timers, this`cues
      ensures Valid()
      ensures Snapshot() == PressKey(old(Snapshot()), key)
    {
      cues := cues + [Click];

      if state == Off {
        if key == PowerKey {
          if battery > 0 {
            ScheduleBoot(Home, true);
          } else {
            notices := notices + 1;
          }
        }
        return;
      }

      if state == Recovery {
        if key == PowerKey {
          ScheduleBoot(SetupWizard, false);
        }
        return;
      }

      RunningKey(key);
    }

    /** The key switch of handleHardwareKey, reached outside OFF and RECOVERY. */
    method RunningKey(key: HardwareKey)
      requires Valid()
      modifies this`state, this`app, this`menuOpen, this`drawerOpen, this`shadeOpen
      ensures Valid()
      ensures Snapshot() == KeySwitch(old(Snapshot()), key)
    {
      match key
      case HomeKey =>
        app := None;
        drawerOpen := false;
        menuOpen := false;
        shadeOpen := false;
      case BackKey =>
        if shadeOpen {
          shadeOpen := false;
        } else if menuOpen {
          menuOpen := false;
        } else if HasApp(app) {
          app := None;
        } else if drawerOpen {
          drawerOpen := false;
        }
      case MenuKey =>
        if !HasApp(app) {
          menuOpen := !menuOpen;
        }
      case PowerKey =>
        state := Off;
      case _ =>
    }

    /** The power-up: BOOT_LOGO now, and the two one-shot timers at 2000 ms and 6000 ms. */
    method ScheduleBoot(final: SystemState, unlock: bool)
      requires Valid()
      modifies this`state, this`timers
      ensures Valid()
      ensures state == BootLogo && timers == old(timers) + BootTimers(now, final, unlock)
    {
      state := BootLogo;
      timers := timers + [BootTimer(now + BootAnimationDelay, BootAnimation, false)];
      timers := timers + [BootTimer(now + BootDoneDelay, final, unlock)];
    }

    /** One tick of the battery interval (every 500 ms while charging, every 25000 ms otherwise). */
    method BatteryTick()
      requires Valid()
      modifies this`battery
      ensures Valid()
      ensures Snapshot() == DeviceModel.BatteryTick(old(Snapshot()))
    {
      if charging {
        battery := Min(100, battery + 1);
      } else {
        battery := Max(0, battery - 1);
      }
    }

    /** The emergency-shutdown effect, run after every change of the battery level or the state. */
    method ShutdownEffect()
      requires Valid()
      modifies this`state, this`app
      ensures Valid()
      ensures Snapshot() == DeviceModel.ShutdownEffect(old(Snapshot()))
    {
      if battery == 0 && state != Off && state != Recovery {
        state := Off;
        app := None;
      }
    }

    /** The keyboard-visibility effect, run after every change of the current app. */
    method SyncKeyboard()
      requires Valid()
      modifies this`keyboardOpen
      ensures Valid()
      ensures Snapshot() == DeviceModel.SyncKeyboard(old(Snapshot()))
    {
      if HasApp(app) && app.value in KeyboardApps {
        keyboardOpen := true;
      } else {
        keyboardOpen := false;
      }
    }

    /** The pending boot timer `i`, an earliest one, fires. */
    method FireTimer(i: nat)
      requires Valid() && Earliest(timers, i)
      modifies this`state, this`now, this`timers, this`cues
      ensures Valid()
      ensures Snapshot() == DeviceModel.FireTimer(old(Snapshot()), i)
    {
      var t := timers[i];
      now := t.due;
      timers := timers[..i] + timers[i + 1..];
      if t.unlock {
        cues := cues + [Unlock];
      }
      state := t.target;
    }

    /** Virtual time passes without any timer coming due. */
    method Elapse(ms: nat)
      requires Valid()
      requires forall i :: 0 <= i < |timers| ==> timers[i].due >= now + ms
      modifies this`now
      ensures Valid()
      ensures Snapshot() == DeviceModel.Elapse(old(Snapshot()), ms)
    {
      now := now + ms;
    }

    /** handleLongPress, after the home screen was held for 800 ms. */
    method LongPress()
      requires Valid()
      modifies this`menuOpen, this`cues
      ensures Valid()
      ensures Snapshot() == DeviceModel.LongPress(old(Snapshot()))
    {
      if state == Home && !HasApp(app) && !drawerOpen && !shadeOpen {
        cues := cues + [Click];
        menuOpen := true;
      }
    }

    /** The Start button of the setup wizard, the only control of that screen. */
    method FinishSetup()
      requires Valid()
      requires state == SetupWizard
      modifies this`state, this`cues
      ensures Valid()
      ensures Snapshot() == DeviceModel.FinishSetup(old(Snapshot()))
    {
      cues := cues + [Unlock];
      state := Home;
    }

    /** A tap on an app icon: a home shortcut, the dock, or the drawer (which then closes). */
    method Launch(id: string, fromDrawer: bool)
      requires Valid()
      modifies this`app, this`drawerOpen, this`cues
      ensures Valid()
      ensures Snapshot() == DeviceModel.Launch(old(Snapshot()), id, fromDrawer)
    {
      cues := cues + [Click];
      app := Some(id);
      if fromDrawer {
        drawerOpen := false;
      }
    }

    /** setCurrentAppId as handed to the Market screen (no cue of its own). */
    method OpenApp(id: string)
      requires Valid()
      modifies this`app
      ensures Valid()
      ensures app == Some(id)
    {
      app := Some(id);
    }

    /** The drawer button of the dock. */
    method OpenDrawer()
      requires Valid()
      modifies this`drawerOpen, this`cues
      ensures Valid()
      ensures drawerOpen && cues == old(cues) + [Click]
    {
      cues := cues + [Click];
      drawerOpen := true;
    }

    /** A tap on the status bar toggles the notification shade. */
    method ToggleShade()
      requires Valid()
      modifies this`shadeOpen
      ensures Valid()
      ensures shadeOpen == !old(shadeOpen)
    {
      shadeOpen := !shadeOpen;
    }

    /** The Clear button or the handle of the notification shade. */
    method CloseShade()
      requires Valid()
      modifies this`shadeOpen
      ensures Valid()
      ensures !shadeOpen
    {
      shadeOpen := false;
    }

    /** The hide button of the virtual keyboard. */
    method HideKeyboard()
      requires Valid()
      modifies this`keyboardOpen
      ensures Valid()
      ensures !keyboardOpen
    {
      keyboardOpen := false;
    }

    /** The charger button: plugs the cable in or pulls it out. */
    method ToggleCharging()
      requires Valid()
      modifies this`charging, this`cues
      ensures Valid()
      ensures charging == !old(charging) && cues == old(cues) + [Click]
    {
      cues := cues + [Click];
      charging := !charging;
    }

    /** installApp. */
    method InstallApp(id: string)
      requires Valid()
      modifies this`apps
      ensures Valid()
      ensures apps == Install(old(apps), id)
    {
      apps := Install(apps, id);
    }

    /** addWidget, with the random id supplied by the caller; the menu closes. */
    method AddWidget(id: string, kind: WidgetType)
      requires Valid()
      modifies this`widgets, this`menuOpen
      ensures Valid()
      ensures widgets == old(widgets) + [WidgetInstance(id, kind, 0, 0)]
      ensures !menuOpen
    {
      widgets := widgets + [WidgetInstance(id, kind, 0, 0)];
      menuOpen := false;
    }

    /** removeWidget. */
    method RemoveWidget(id: string)
      requires Valid()
      modifies this`widgets
      ensures Valid()
      ensures widgets == Catalog.RemoveWidget(old(widgets), id)
    {
      widgets := Catalog.RemoveWidget(widgets, id);
    }

    /** A new image (from the camera or the image generator) goes in front of the gallery. */
    method AddGalleryImage(img: string)
      requires Valid()
      modifies this`galleryImages
      ensures Valid()
      ensures galleryImages == [img] + old(galleryImages)
    {
      galleryImages := [img] + galleryImages;
    }

    /** The gallery's Set Wallpaper button. */
    method SetWallpaper(img: string)
      requires Valid()
      modifies this`wallpaper
      ensures Valid()
      ensures wallpaper == img
    {
      wallpaper := img;
    }

    /** The Wallpaper item of the home menu; the menu closes. */
    method MenuWallpaper()
      requires Valid()
      modifies this`wallpaper, this`menuOpen, this`cues
      ensures Valid()
      ensures wallpaper == NextMenuWallpaper(old(wallpaper))
      ensures !menuOpen && cues == old(cues) + [Click]
    {
      cues := cues + [Click];
      wallpaper := if wallpaper == BlackWallpaper then BlueWallpaper else BlackWallpaper;
      menuOpen := false;
    }

    /** The Clock and Power Control items of the home menu add that widget; the menu closes. */
    method MenuAddWidget(id: string, kind: WidgetType)
      requires Valid()
      modifies this`widgets, this`menuOpen, this`cues
      ensures Valid()
      ensures widgets == old(widgets) + [WidgetInstance(id, kind, 0, 0)]
      ensures !menuOpen && cues == old(cues) + [Click]
    {
      cues := cues + [Click];
      AddWidget(id, kind);
    }

    /** The Settings item of the home menu opens the settings app; the menu closes. */
    method MenuSettings()
      requires Valid()
      modifies this`app, this`menuOpen, this`cues
      ensures Valid()
      ensures app == Some("settings") && !menuOpen && cues == old(cues) + [Click]
    {
      cues := cues + [Click];
      app := Some("settings");
      menuOpen := false;
    }

    /**
     * A key on the recovery screen: the arrows move the cursor and Enter on the first
     * option ("reboot system now") presses POWER.
     */
    method RecoveryKey(menu: RecoveryMenu, key: RecoveryInput)
      requires Valid() && state == Recovery
      modifies menu, this`state, this`app, this`menuOpen, this`drawerOpen, this`shadeOpen,
               this`notices, this`timers, this`cues
      ensures Valid()
      ensures menu.selected == CursorStep(old(menu.selected), key)
      ensures key == Enter && old(menu.selected) == 0 ==> Snapshot() == PressKey(old(Snapshot()), PowerKey)
      ensures !(key == Enter && old(menu.selected) == 0) ==> Snapshot() == old(Snapshot())
    {
      var boot := menu.Key(key);
      if boot {
        HandleHardwareKey(PowerKey);
      }
    }
  }

  /** The cursor of the recovery screen (CWMRecovery). */
  class RecoveryMenu {
    var selected: int

    constructor ()
      ensures selected == 0
    {
      selected := 0;
    }

    method Key(key: RecoveryInput) returns (boot: bool)
      modifies this
      ensures selected == CursorStep(old(selected), key)
      ensures boot <==> key == Enter && old(selected) == 0
    {
      if key == ArrowUp {
        selected := Max(0, selected - 1);
      }
      if key == ArrowDown {
        selected := Min(RecoveryOptions - 1, selected + 1);
      }
      boot := key == Enter && selected == 0;
    }
  }
}

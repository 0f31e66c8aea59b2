/**
 * The device controller of the simulator (App.tsx) as values: a snapshot of the
 * controller's state and one transition function per event. The class
 * `DeviceApp.Controller` is proved to follow these functions; the lemmas below
 * state what the controller promises.
 */
module DeviceModel {
  import opened Wrappers

  /** SystemState (types.ts). LockScreen and AppOpen exist but the controller never enters them. */
  datatype SystemState = Off | Recovery | BootLogo | BootAnimation | SetupWizard | LockScreen | Home | AppOpen

  /** HardwareKey (types.ts). The trackball sends PowerKey; TrackballKey is never sent. */
  datatype HardwareKey = BackKey | MenuKey | HomeKey | SearchKey | PowerKey | VolUpKey | VolDownKey | TrackballKey

  /** A sound cue the controller fires (the sounds themselves are not modelled). */
  datatype Cue = Click | Unlock

  /** A pending one-shot boot timer: at virtual time `due` it sets `target` (and plays the unlock cue if `unlock`). */
  datatype BootTimer = BootTimer(due: nat, target: SystemState, unlock: bool)

  /** Everything the controller keeps that the power/boot/app-lifecycle logic reads or writes. */
  datatype Device = Device(
    state: SystemState,
    battery: int,
    charging: bool,
    app: Option<string>,     // currentAppId
    menuOpen: bool,
    drawerOpen: bool,
    keyboardOpen: bool,
    shadeOpen: bool,
    notices: nat,            // "Battery is empty" alerts raised so far
    now: nat,                // virtual time in milliseconds
    timers: seq<BootTimer>,  // boot timers scheduled and not yet fired
    cues: seq<Cue>)          // sound cues fired so far

  const InitialBattery: int := 85
  const BootAnimationDelay: nat := 2000
  const BootDoneDelay: nat := 6000
  /** Cursor positions of the recovery menu: its eight options. */
  const RecoveryOptions: int := 8

  /** Apps whose screens open the virtual keyboard. */
  const KeyboardApps: seq<string> := ["gemini", "browser", "whatsapp", "messages", "gallery"]

  /** The battery stays in [0,100] and no pending timer is overdue. */
  predicate Valid(d: Device) {
    && 0 <= d.battery <= 100
    && forall i :: 0 <= i < |d.timers| ==> d.timers[i].due >= d.now
  }

  /** JavaScript truthiness of `currentAppId`: set and not the empty string. */
  predicate HasApp(app: Option<string>) {
    app.Some? && app.value != ""
  }

  predicate PoweredDown(s: SystemState) {
    s == Off || s == Recovery
  }

  /** The state the controller starts in. */
  function Initial(): (d: Device)
    ensures Valid(d) && d.state == Recovery && d.battery == InitialBattery
    ensures !d.charging && d.app == None && d.timers == [] && d.cues == []
    ensures !d.menuOpen && !d.drawerOpen && !d.keyboardOpen && !d.shadeOpen
  {
    Device(Recovery, InitialBattery, false, None, false, false, false, false, 0, 0, [], [])
  }

  /** The two boot timers a power-on schedules; the second one ends in `final`. */
  function BootTimers(now: nat, final: SystemState, unlock: bool): seq<BootTimer> {
    [BootTimer(now + BootAnimationDelay, BootAnimation, false), BootTimer(now + BootDoneDelay, final, unlock)]
  }

  /** handleHardwareKey. */
  function PressKey(d: Device, key: HardwareKey): (r: Device)
    ensures r.cues == d.cues + [Click]
    ensures PoweredDown(d.state) && key != PowerKey ==> r == d.(cues := d.cues + [Click])
    ensures r.battery == d.battery && r.charging == d.charging && r.now == d.now
    ensures r.keyboardOpen == d.keyboardOpen
    ensures Valid(d) ==> Valid(r)
  {
    var d := d.(cues := d.cues + [Click]);
    if d.state == Off then
      if key != PowerKey then d
      else if d.battery > 0 then
        d.(state := BootLogo, timers := d.timers + BootTimers(d.now, Home, true))
      else
        d.(notices := d.notices + 1)
    else if d.state == Recovery then
      if key != PowerKey then d
      else d.(state := BootLogo, timers := d.timers + BootTimers(d.now, SetupWizard, false))
    else
      KeySwitch(d, key)
  }

  /** The key switch of handleHardwareKey, reached in every state but OFF and RECOVERY. */
  function KeySwitch(d: Device, key: HardwareKey): (r: Device)
    ensures r == d.(state := r.state, app := r.app, menuOpen := r.menuOpen, drawerOpen := r.drawerOpen, shadeOpen := r.shadeOpen)
    ensures r.state == (if key == PowerKey then Off else d.state)
  {
    match key
    case HomeKey => d.(app := None, drawerOpen := false, menuOpen := false, shadeOpen := false)
    case BackKey =>
      if d.shadeOpen then d.(shadeOpen := false)
      else if d.menuOpen then d.(menuOpen := false)
      else if HasApp(d.app) then d.(app := None)
      else if d.drawerOpen then d.(drawerOpen := false)
      else d
    case MenuKey => if !HasApp(d.app) then d.(menuOpen := !d.menuOpen) else d
    case PowerKey => d.(state := Off)
    case _ => d
  }

  /** One tick of the battery interval. */
  function BatteryTick(d: Device): (r: Device)
    ensures r == d.(battery := r.battery)
    ensures d.charging ==> r.battery == if d.battery + 1 > 100 then 100 else d.battery + 1
    ensures !d.charging ==> r.battery == if d.battery - 1 < 0 then 0 else d.battery - 1
    ensures Valid(d) ==> Valid(r)
  {
    if d.charging then d.(battery := Min(100, d.battery + 1))
    else d.(battery := Max(0, d.battery - 1))
  }

  function Min(a: int, b: int): int { if a <= b then a else b }
  function Max(a: int, b: int): int { if a >= b then a else b }

  /** The effect that forces a shutdown when the battery is empty. */
  function ShutdownEffect(d: Device): (r: Device)
    ensures r == d || r == d.(state := Off, app := None)
    ensures r != d <==> d.battery == 0 && !PoweredDown(d.state)
    ensures Valid(d) ==> Valid(r)
  {
    if d.battery == 0 && d.state != Off && d.state != Recovery then d.(state := Off, app := None) else d
  }

  /** The keyboard-visibility effect, run whenever `currentAppId` changes. */
  function SyncKeyboard(d: Device): (r: Device)
    ensures r == d.(keyboardOpen := r.keyboardOpen)
    ensures r.keyboardOpen <==> d.app.Some? && d.app.value in KeyboardApps
  {
    d.(keyboardOpen := HasApp(d.app) && d.app.value in KeyboardApps)
  }

  /** Running the shutdown effect a second time changes nothing. */
  lemma ShutdownEffectIdempotent(d: Device)
    ensures ShutdownEffect(ShutdownEffect(d)) == ShutdownEffect(d)
  {
  }

  /** Running the keyboard effect a second time changes nothing. */
  lemma SyncKeyboardIdempotent(d: Device)
    ensures SyncKeyboard(SyncKeyboard(d)) == SyncKeyboard(d)
  {
  }

  /** The long press on the home screen: opens the menu when nothing covers the home screen. */
  function LongPress(d: Device): (r: Device)
    ensures d.state == Home && !HasApp(d.app) && !d.drawerOpen && !d.shadeOpen ==>
      r == d.(menuOpen := true, cues := d.cues + [Click])
    ensures !(d.state == Home && !HasApp(d.app) && !d.drawerOpen && !d.shadeOpen) ==> r == d
    ensures r.menuOpen <==> d.menuOpen || (d.state == Home && !HasApp(d.app) && !d.drawerOpen && !d.shadeOpen)
  {
    if d.state == Home && !HasApp(d.app) && !d.drawerOpen && !d.shadeOpen then
      d.(cues := d.cues + [Click], menuOpen := true)
    else d
  }

  /** The Start button of the setup wizard. */
  function FinishSetup(d: Device): (r: Device)
    requires d.state == SetupWizard
    ensures r.state == Home && r.cues == d.cues + [Unlock]
    ensures r == d.(state := Home, cues := r.cues)
  {
    d.(cues := d.cues + [Unlock], state := Home)
  }

  /** Tapping an app icon (home shortcuts, dock, or drawer; the drawer closes behind it). */
  function Launch(d: Device, id: string, fromDrawer: bool): (r: Device)
    ensures r.app == Some(id) && r.cues == d.cues + [Click]
    ensures r.drawerOpen == (d.drawerOpen && !fromDrawer)
    ensures r == d.(app := r.app, drawerOpen := r.drawerOpen, cues := r.cues)
  {
    var d := d.(cues := d.cues + [Click], app := Some(id));
    if fromDrawer then d.(drawerOpen := false) else d
  }

  /**
   * Index `i` names the timer the event loop fires next: due no later than any other
   * pending timer, and scheduled before every other timer with the same due time
   * (timers are kept in scheduling order).
   */
  predicate Earliest(ts: seq<BootTimer>, i: nat) {
    && i < |ts|
    && (forall j :: 0 <= j < |ts| ==> ts[i].due <= ts[j].due)
    && (forall j :: 0 <= j < i ==> ts[j].due > ts[i].due)
  }

  /** The event loop fires pending timer `i`, which must be an earliest one. */
  function FireTimer(d: Device, i: nat): (r: Device)
    requires Earliest(d.timers, i)
    ensures r.state == d.timers[i].target && r.now == d.timers[i].due
    ensures r.timers == d.timers[..i] + d.timers[i + 1..]
    ensures r.cues == d.cues + (if d.timers[i].unlock then [Unlock] else [])
    ensures r == d.(state := r.state, now := r.now, timers := r.timers, cues := r.cues)
    ensures Valid(d) ==> Valid(r)
  {
    var t := d.timers[i];
    d.(now := t.due, timers := d.timers[..i] + d.timers[i + 1..],
       cues := d.cues + (if t.unlock then [Unlock] else []), state := t.target)
  }

  /** Virtual time passes; the event loop lets no timer become overdue. */
  function Elapse(d: Device, ms: nat): (r: Device)
    requires forall i :: 0 <= i < |d.timers| ==> d.timers[i].due >= d.now + ms
    ensures r.now == d.now + ms && r == d.(now := r.now)
    ensures Valid(d) ==> Valid(r)
  {
    d.(now := d.now + ms)
  }

  // ---------------------------------------------------------------------------
  // Hardware keys

  /** In OFF and RECOVERY, every key but POWER changes nothing but the click cue. */
  lemma PoweredDownIgnoresOtherKeys(d: Device, key: HardwareKey)
    requires PoweredDown(d.state) && key != PowerKey
    ensures PressKey(d, key).cues == d.cues + [Click]
    ensures PressKey(d, key).(cues := d.cues) == d
  {
  }

  /** POWER in OFF boots only when the battery holds charge; otherwise only the empty-battery notice is raised. */
  lemma PowerFromOff(d: Device)
    requires d.state == Off
    ensures var r := PressKey(d, PowerKey);
      && (d.battery > 0 ==> r == d.(state := BootLogo, timers := d.timers + BootTimers(d.now, Home, true), cues := r.cues))
      && (d.battery <= 0 ==> r == d.(notices := d.notices + 1, cues := r.cues))
  {
  }

  /** POWER in RECOVERY boots towards the setup wizard, never towards HOME. */
  lemma PowerFromRecovery(d: Device)
    requires d.state == Recovery
    ensures var r := PressKey(d, PowerKey);
      && r == d.(state := BootLogo, timers := d.timers + BootTimers(d.now, SetupWizard, false), cues := r.cues)
      && forall i :: |d.timers| <= i < |r.timers| ==> r.timers[i].target != Home
  {
  }

  /** HOME closes the app and the drawer, menu and shade; pressing it again changes nothing but the cue. */
  lemma HomeKeyClearsAndIsIdempotent(d: Device)
    requires !PoweredDown(d.state)
    ensures var r := PressKey(d, HomeKey);
      && r.app == None && !r.drawerOpen && !r.menuOpen && !r.shadeOpen
      && r.state == d.state && r.keyboardOpen == d.keyboardOpen && r.notices == d.notices && r.timers == d.timers
      && PressKey(r, HomeKey) == r.(cues := r.cues + [Click])
  {
  }

  /** BACK closes exactly the first open layer in the order shade, menu, app, drawer. */
  lemma BackClosesFirstOpenLayer(d: Device)
    requires !PoweredDown(d.state)
    ensures var r := PressKey(d, BackKey);
      && r.state == d.state
      && (d.shadeOpen ==> r == d.(shadeOpen := false, cues := r.cues))
      && (!d.shadeOpen && d.menuOpen ==> r == d.(menuOpen := false, cues := r.cues))
      && (!d.shadeOpen && !d.menuOpen && HasApp(d.app) ==> r == d.(app := None, cues := r.cues))
      && (!d.shadeOpen && !d.menuOpen && !HasApp(d.app) && d.drawerOpen ==> r == d.(drawerOpen := false, cues := r.cues))
      && (!d.shadeOpen && !d.menuOpen && !HasApp(d.app) && !d.drawerOpen ==> r == d.(cues := r.cues))
  {
  }

  /** With shade, menu and app open, four BACK presses close shade, then menu, then app, then nothing. */
  lemma BackSequence(d: Device)
    requires !PoweredDown(d.state) && d.shadeOpen && d.menuOpen && HasApp(d.app) && !d.drawerOpen
    ensures var r1 := PressKey(d, BackKey);
      var r2 := PressKey(r1, BackKey);
      var r3 := PressKey(r2, BackKey);
      var r4 := PressKey(r3, BackKey);
      && !r1.shadeOpen && r1.menuOpen && r1.app == d.app
      && !r2.menuOpen && r2.app == d.app
      && r3.app == None
      && r4 == r3.(cues := r3.cues + [Click])
  {
  }

  /** MENU toggles the menu exactly when no app is open. */
  lemma MenuTogglesWithoutApp(d: Device)
    requires !PoweredDown(d.state)
    ensures var r := PressKey(d, MenuKey);
      && (!HasApp(d.app) ==> r == d.(menuOpen := !d.menuOpen, cues := r.cues))
      && (HasApp(d.app) ==> r == d.(cues := r.cues))
  {
  }

  /** POWER outside OFF/RECOVERY powers down but keeps the app and the overlays as they were. */
  lemma PowerOffKeepsAppAndOverlays(d: Device)
    requires !PoweredDown(d.state)
    ensures var r := PressKey(d, PowerKey);
      r.state == Off && r == d.(state := Off, cues := r.cues)
  {
  }

  /** SEARCH, the volume keys and TRACKBALL have no effect in any state. */
  lemma UnboundKeysOnlyClick(d: Device, key: HardwareKey)
    requires key in {SearchKey, VolUpKey, VolDownKey, TrackballKey}
    ensures PressKey(d, key) == d.(cues := d.cues + [Click])
  {
  }

  /** Keys during the boot screens and the setup wizard are handled like on the home screen. */
  lemma BootScreensAcceptKeys(d: Device)
    requires d.state in {BootLogo, BootAnimation, SetupWizard}
    ensures PressKey(d, PowerKey).state == Off
    ensures !HasApp(d.app) ==> PressKey(d, MenuKey).menuOpen == !d.menuOpen
  {
  }

  // ---------------------------------------------------------------------------
  // Boot sequences

  /** The two timers appended by a power-on are, in order, the earliest pending ones when nothing else is pending. */
  lemma {:induction false} ColdBootEndsHome(d: Device)
    requires Valid(d) && d.state == Off && d.battery > 0 && d.timers == []
    ensures var r1 := PressKey(d, PowerKey);
      && r1.state == BootLogo && Earliest(r1.timers, 0)
      && var r2 := FireTimer(r1, 0);
      && r2.state == BootAnimation && r2.now == d.now + BootAnimationDelay && Earliest(r2.timers, 0)
      && var r3 := FireTimer(r2, 0);
      && r3.state == Home && r3.now == d.now + BootDoneDelay && r3.timers == []
      && r3.cues == d.cues + [Click, Unlock]
  {
    var r1 := PressKey(d, PowerKey);
    assert r1.timers == BootTimers(d.now, Home, true);
    var r2 := FireTimer(r1, 0);
    assert r2.timers == [BootTimer(d.now + BootDoneDelay, Home, true)];
  }

  /** The first boot from RECOVERY passes the same screens but ends in the setup wizard, never HOME. */
  lemma {:induction false} FirstBootEndsInSetupWizard(d: Device)
    requires Valid(d) && d.state == Recovery && d.timers == []
    ensures var r1 := PressKey(d, PowerKey);
      && r1.state == BootLogo && Earliest(r1.timers, 0)
      && var r2 := FireTimer(r1, 0);
      && r2.state == BootAnimation && Earliest(r2.timers, 0)
      && var r3 := FireTimer(r2, 0);
      && r3.state == SetupWizard && r3.timers == []
      && r3.cues == d.cues + [Click]
  {
    var r1 := PressKey(d, PowerKey);
    PowerFromRecovery(d);
    assert r1.timers == BootTimers(d.now, SetupWizard, false);
    assert Earliest(r1.timers, 0);
    var r2 := FireTimer(r1, 0);
    assert r2.state == BootAnimation;
    assert r2.timers == [BootTimer(d.now + BootDoneDelay, SetupWizard, false)];
    assert Earliest(r2.timers, 0);
    var r3 := FireTimer(r2, 0);
    assert r3.state == SetupWizard;
    assert r3.cues == d.cues + [Click] + [] + [];
  }

  /** Boot timers are never cancelled: powering off during the boot logo does not stop the device reaching HOME. */
  lemma {:induction false} PendingTimerOverridesPowerOff(d: Device)
    requires Valid(d) && d.state == Off && d.battery > 0 && d.timers == []
    ensures var r1 := PressKey(PressKey(d, PowerKey), PowerKey);
      && r1.state == Off && Earliest(r1.timers, 0)
      && var r2 := FireTimer(r1, 0);
      && Earliest(r2.timers, 0)
      && FireTimer(r2, 0).state == Home
  {
    PowerFromOff(d);
    var r0 := PressKey(d, PowerKey);
    assert r0.state == BootLogo && r0.timers == BootTimers(d.now, Home, true);
    PowerOffKeepsAppAndOverlays(r0);
    var r1 := PressKey(r0, PowerKey);
    assert r1.timers == BootTimers(d.now, Home, true);
    assert Earliest(r1.timers, 0);
    var r2 := FireTimer(r1, 0);
    assert r2.timers == [BootTimer(d.now + BootDoneDelay, Home, true)];
    assert Earliest(r2.timers, 0);
  }

  // ---------------------------------------------------------------------------
  // Battery

  /** `n` battery ticks, each followed by the shutdown effect. */
  function Drain(d: Device, n: nat): Device
    decreases n
  {
    if n == 0 then d else Drain(ShutdownEffect(BatteryTick(d)), n - 1)
  }

  /** `n` battery ticks without anything in between. */
  function Ticks(d: Device, n: nat): Device
    decreases n
  {
    if n == 0 then d else Ticks(BatteryTick(d), n - 1)
  }

  /** While charging, n ticks raise the level by n, capped at 100; nothing else changes. */
  lemma {:induction false} ChargingTicks(d: Device, n: nat)
    requires Valid(d) && d.charging
    ensures Ticks(d, n) == d.(battery := Min(100, d.battery + n))
    decreases n
  {
    if n > 0 {
      ChargingTicks(BatteryTick(d), n - 1);
    }
  }

  /** While draining, n ticks lower the level by n, floored at 0; nothing else changes. */
  lemma {:induction false} DrainingTicks(d: Device, n: nat)
    requires Valid(d) && !d.charging
    ensures Ticks(d, n) == d.(battery := Max(0, d.battery - n))
    decreases n
  {
    if n > 0 {
      DrainingTicks(BatteryTick(d), n - 1);
    }
  }

  /**
   * Draining a running device: the tick that takes the level to 0 powers it off and
   * clears the app; every earlier tick leaves the state and the app alone.
   */
  lemma {:induction false} DrainShutsDownAtZero(d: Device, n: nat)
    requires Valid(d) && !d.charging && !PoweredDown(d.state) && d.battery > 0
    ensures Drain(d, n).battery == Max(0, d.battery - n)
    ensures n < d.battery ==> Drain(d, n) == d.(battery := d.battery - n)
    ensures n >= d.battery ==> Drain(d, n).state == Off && Drain(d, n).app == None
    decreases n
  {
    if n > 0 {
      var e := ShutdownEffect(BatteryTick(d));
      if d.battery == 1 {
        assert e.state == Off && e.battery == 0;
        DrainStaysOff(e, n - 1);
      } else {
        assert e == d.(battery := d.battery - 1);
        DrainShutsDownAtZero(e, n - 1);
      }
    }
  }

  /** An empty, powered-off, draining device stays empty and off. */
  lemma {:induction false} DrainStaysOff(d: Device, n: nat)
    requires !d.charging && d.state == Off && d.app == None && d.battery == 0
    ensures Drain(d, n) == d
    decreases n
  {
    if n > 0 {
      DrainStaysOff(ShutdownEffect(BatteryTick(d)), n - 1);
    }
  }

  /** A tick that empties the battery of a running device shuts it down; any other tick leaves state and app alone. */
  lemma TickThenShutdown(d: Device)
    requires Valid(d) && !PoweredDown(d.state)
    ensures var r := ShutdownEffect(BatteryTick(d));
      && (BatteryTick(d).battery == 0 ==> r.state == Off && r.app == None)
      && (BatteryTick(d).battery > 0 ==> r.state == d.state && r.app == d.app)
  {
  }

  // ---------------------------------------------------------------------------
  // The recovery menu cursor

  datatype RecoveryInput = ArrowUp | ArrowDown | Enter | OtherKey

  /** Moves the recovery-menu cursor, clamped to the eight options. */
  function CursorStep(selected: int, key: RecoveryInput): (r: int)
    ensures 0 <= selected < RecoveryOptions ==> 0 <= r < RecoveryOptions
    ensures key == ArrowUp && selected > 0 ==> r == selected - 1
    ensures key == ArrowDown && selected < RecoveryOptions - 1 ==> r == selected + 1
    ensures key == ArrowUp && selected == 0 ==> r == 0
    ensures key == ArrowDown && selected == RecoveryOptions - 1 ==> r == selected
    ensures key != ArrowUp && key != ArrowDown ==> r == selected
  {
    match key
    case ArrowUp => Max(0, selected - 1)
    case ArrowDown => Min(RecoveryOptions - 1, selected + 1)
    case _ => selected
  }

  /** The cursor after `n` presses of the down arrow. */
  function Downs(selected: int, n: nat): int
    decreases n
  {
    if n == 0 then selected else Downs(CursorStep(selected, ArrowDown), n - 1)
  }

  /** From any valid position, n presses of the down arrow stop at the last option. */
  lemma {:induction false} DownsClamp(selected: int, n: nat)
    requires 0 <= selected < RecoveryOptions
    ensures Downs(selected, n) == Min(RecoveryOptions - 1, selected + n)
    decreases n
  {
    if n > 0 {
      DownsClamp(CursorStep(selected, ArrowDown), n - 1);
    }
  }
}

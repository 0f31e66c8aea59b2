# Nexus One simulator: the device controller and its app screens

This project models a browser simulator of a Nexus One phone running Android 2.3.
The main part is the device controller kept by the `App` component. It holds:
- the power state (`OFF`, `RECOVERY`, the two boot screens, the setup wizard, `HOME`);
- the battery level and the charger;
- the open app;
- four overlays: the home menu, the app drawer, the virtual keyboard and the notification shade.

Around the controller sit:
- the small state machines of the app screens: the virtual keyboard buffer, the voice recorder, the calculator, the dialer, the Cydia tweak switches, the chat logs, the browser history, the Market, the Gallery and the Gemini chat;
- the Power Control widget;
- the `data:` URL handling of the generative-content service.

Layout:
- `device_model.dfy` (module `DeviceModel`): the controller's state as a value, with one pure transition function per event. The lemmas about the hardware keys, the boot sequences, the battery and the recovery cursor are stated on these functions.
- `device_app.dfy` (module `DeviceApp`): the controller as a class with one field per piece of React state and one method per event. Each method is proved to follow its transition function through the ghost `Snapshot()`.
- `catalog.dfy` (`Catalog`): the app catalog, widgets, tweaks and the list updates on them.
- `keyboard.dfy` (`VirtualKeyboard`), `recorder.dfy` (`Recorder`), `calculator.dfy` (`Calculator`), `phone.dfy` (`Phone`), `cydia.dfy` (`Cydia`), `messaging.dfy` (`Messaging`), `market.dfy` (`Market`), `gallery.dfy` (`Gallery`), `gemini_chat.dfy` (`GeminiChat`): the app screens.
- `widgets.dfy` (`PowerControl`): the Power Control widget.
- `gemini.dfy` (`Gemini`): the service, with the network taken as a parameter.
- `wrappers.dfy` (`Wrappers`): `Option`.

Timers and intervals become explicit events.
- The controller keeps a virtual clock `now` and a list of pending one-shot boot timers.
- `FireTimer(i)` fires the timer the browser fires next: one due first, and among timers due at the same time the one scheduled first. `Elapse(ms)` advances the clock, but never past a pending timer.
- A battery tick is one call of `BatteryTick`. The shutdown and keyboard effects are calls of `ShutdownEffect` and `SyncKeyboard`, made by the event loop after the state they watch changes.
- The click and unlock sounds are recorded as a sequence of cues on the controller.
- The battery-empty alert is a notice counter.

Behaviour of the code that a reader might not expect, and which the model follows:
- Hardware keys pressed during the boot logo, the boot animation or the setup wizard are not ignored. They reach the key switch like on the home screen (`BootScreensAcceptKeys`).
- POWER on a running device sets `OFF` but keeps the open app and the overlays (`PowerOffKeepsAppAndOverlays`). So an app can be recorded while the device is off. It is cleared only by the battery shutdown effect or by later keys.
- Boot timers are never cancelled. Powering off during the boot logo does not stop the device from reaching `HOME` (`PendingTimerOverridesPowerOff`).
- `LOCK_SCREEN` and `APP_OPEN` exist in the state type but are never entered. An open app is only `currentAppId`.
- SEARCH, the volume keys and TRACKBALL have no case in the key switch. They only click (`UnboundKeysOnlyClick`).
- `currentAppId` is tested for truthiness. The empty string counts as no app (`HasApp`).
- The chat and browser send actions trim only to test for blank input. They store the untrimmed text.
- The calculator's `=` replaces only the first `x` of the display before evaluation. `Press` and the screen's `Handle` follow the code as written; `PressIntended` is the corrected version (see Findings).
- The Gallery's generate action tests the prompt for emptiness without trimming, and Enter on the keyboard reaches it whatever the view and even while a generation is loading.

## Model

| member | source | states |
|---|---|---|
| DeviceModel.Initial | App.tsx:250-266 | the controller starts in RECOVERY at 85% battery, not charging, with no app, no overlay, no timer and no cue |
| DeviceModel.PressKey | App.tsx:308-358 | every key press adds exactly one click cue; in OFF/RECOVERY any key but POWER changes nothing else; battery, charger, clock and keyboard are never touched; the battery range and timer invariant are kept |
| DeviceModel.KeySwitch | App.tsx:336-357 | the key switch touches only state, app and the menu/drawer/shade flags, and changes the state only on POWER (to OFF) |
| DeviceModel.BatteryTick | App.tsx:277-283 | a tick adds 1 capped at 100 while charging and subtracts 1 floored at 0 otherwise, nothing else changes, and the level stays in [0,100] |
| DeviceModel.ShutdownEffect | App.tsx:291-296 | the effect either changes nothing or sets OFF and clears the app, and it changes something exactly when the battery is 0 and the device is neither OFF nor in RECOVERY |
| DeviceModel.ShutdownEffectIdempotent | App.tsx:291-296 | running the shutdown effect twice is the same as once |
| DeviceModel.SyncKeyboard | App.tsx:299-306 | the keyboard is shown exactly when the open app is one of gemini, browser, whatsapp, messages, gallery; nothing else changes |
| DeviceModel.SyncKeyboardIdempotent | App.tsx:299-306 | running the keyboard effect twice is the same as once |
| DeviceModel.LongPress | App.tsx:360-365 | the long press opens the menu (with a click) exactly when the state is HOME and no app, drawer or shade is open, and otherwise changes nothing |
| DeviceModel.FinishSetup | App.tsx:239 | Start in the setup wizard plays the unlock cue and moves to HOME, changing nothing else |
| DeviceModel.Launch | App.tsx:558 | tapping an icon opens that app with a click; only a drawer icon closes the drawer |
| DeviceModel.FireTimer | App.tsx:315-319 | firing the next timer (due first; the first scheduled among equal due times) moves the clock to its due time, sets its target state, removes exactly that timer, adds the unlock cue only for the HOME timer of a cold boot, and keeps the invariant |
| DeviceModel.Elapse | App.tsx:315-319 | time passes up to the next due timer without changing anything else, keeping the invariant |
| DeviceModel.PoweredDownIgnoresOtherKeys | App.tsx:309-334 | in OFF or RECOVERY every key but POWER changes nothing except the click cue |
| DeviceModel.PowerFromOff | App.tsx:311-325 | POWER in OFF with charge goes to the boot logo and schedules the animation at 2000 ms and HOME at 6000 ms; with an empty battery it only raises the empty-battery notice |
| DeviceModel.PowerFromRecovery | App.tsx:327-334 | POWER in RECOVERY goes to the boot logo and schedules the animation and then the setup wizard, and changes nothing else but the click; neither new timer targets HOME |
| DeviceModel.HomeKeyClearsAndIsIdempotent | App.tsx:337-342 | HOME clears the app, drawer, menu and shade and keeps the rest; a second HOME changes nothing but the cue |
| DeviceModel.BackClosesFirstOpenLayer | App.tsx:343-348 | BACK closes exactly the first open layer in the order shade, menu, app, drawer, and with none open changes nothing but the cue |
| DeviceModel.BackSequence | App.tsx:343-348 | with shade, menu and app open, successive BACK presses close shade, then menu, then app, then nothing |
| DeviceModel.MenuTogglesWithoutApp | App.tsx:349-353 | MENU toggles the menu exactly when no app is open, and otherwise changes nothing but the cue |
| DeviceModel.PowerOffKeepsAppAndOverlays | App.tsx:354-356 | POWER on a running device sets OFF and keeps the app and every overlay flag |
| DeviceModel.UnboundKeysOnlyClick | App.tsx:336-357 | SEARCH, VOL_UP, VOL_DOWN and TRACKBALL only add the click cue, in every state |
| DeviceModel.BootScreensAcceptKeys | App.tsx:336-357 | on the boot screens and in the setup wizard POWER still powers off and MENU still toggles the menu |
| DeviceModel.ColdBootEndsHome | App.tsx:311-320 | from OFF with charge and no pending timer, POWER and the two timers pass BOOT_LOGO, BOOT_ANIMATION at +2000 ms and HOME at +6000 ms, with one click and one unlock cue |
| DeviceModel.FirstBootEndsInSetupWizard | App.tsx:327-334 | from RECOVERY the same two timers end in the setup wizard, with no unlock cue |
| DeviceModel.PendingTimerOverridesPowerOff | App.tsx:315-319 | POWER pressed again during the boot logo sets OFF, yet the pending timers still bring the device to HOME |
| DeviceModel.ChargingTicks | App.tsx:277-283 | n ticks while charging raise the level by n, capped at 100, and change nothing else |
| DeviceModel.DrainingTicks | App.tsx:277-283 | n ticks while draining lower the level by n, floored at 0, and change nothing else |
| DeviceModel.DrainShutsDownAtZero | App.tsx:277-296 | draining a running device, ticks before the level reaches 0 change only the level, and from the tick that reaches 0 on the device is OFF with no app |
| DeviceModel.DrainStaysOff | App.tsx:291-296 | an empty, powered-off, draining device is left as it is by further ticks and effects |
| DeviceModel.TickThenShutdown | App.tsx:277-296 | a tick that empties a running device's battery shuts it down and clears the app; any other tick leaves state and app alone |
| DeviceModel.CursorStep | App.tsx:200-205 | the recovery cursor moves up or down by one, clamped to the eight options; other keys keep it |
| DeviceModel.DownsClamp | App.tsx:202 | n presses of the down arrow from a valid position stop at the last option |
| DeviceApp.Controller.constructor | App.tsx:250-266 | the controller starts in the initial device state with the full catalog, one search widget, the default tweaks, no gallery images and a black wallpaper |
| DeviceApp.Controller.HandleHardwareKey | App.tsx:308-358 | the key handler leaves the device as PressKey says and keeps the invariant |
| DeviceApp.Controller.RunningKey | App.tsx:336-357 | the key switch leaves the device as KeySwitch says |
| DeviceApp.Controller.ScheduleBoot | App.tsx:314-319 | a power-on shows the boot logo and appends the two boot timers |
| DeviceApp.Controller.BatteryTick | App.tsx:277-283 | the interval callback follows BatteryTick |
| DeviceApp.Controller.ShutdownEffect | App.tsx:291-296 | the effect follows ShutdownEffect |
| DeviceApp.Controller.SyncKeyboard | App.tsx:299-306 | the effect follows SyncKeyboard |
| DeviceApp.Controller.FireTimer | App.tsx:315-319 | the next timer to fire (due first, first scheduled among ties) follows FireTimer |
| DeviceApp.Controller.Elapse | App.tsx:315-319 | time passing follows Elapse |
| DeviceApp.Controller.LongPress | App.tsx:360-365 | the long press follows LongPress: on HOME with no app, drawer or shade open it clicks and opens the menu, and otherwise it changes nothing; the invariant is kept |
| DeviceApp.Controller.FinishSetup | App.tsx:476 | Start follows FinishSetup |
| DeviceApp.Controller.Launch | App.tsx:522 | an icon tap follows Launch |
| DeviceApp.Controller.OpenApp | App.tsx:409 | the Market's open callback sets the open app |
| DeviceApp.Controller.OpenDrawer | App.tsx:577 | the drawer button clicks and opens the drawer |
| DeviceApp.Controller.ToggleShade | App.tsx:491 | a tap on the status bar toggles the shade |
| DeviceApp.Controller.CloseShade | App.tsx:497 | the shade's close controls close it |
| DeviceApp.Controller.HideKeyboard | App.tsx:585 | the keyboard's hide button hides it |
| DeviceApp.Controller.ToggleCharging | App.tsx:653 | the charger button clicks and toggles charging |
| DeviceApp.Controller.InstallApp | App.tsx:375-377 | installApp replaces the catalog by Install of it |
| DeviceApp.Controller.AddWidget | App.tsx:379-388 | addWidget appends one widget with the given id at (0,0) and closes the menu |
| DeviceApp.Controller.RemoveWidget | App.tsx:390-392 | removeWidget replaces the widgets by RemoveWidget of them: the others in their order and with their multiplicities, every widget with the id gone; the invariant is kept |
| DeviceApp.Controller.AddGalleryImage | App.tsx:412 | a new image is put in front of the gallery |
| DeviceApp.Controller.SetWallpaper | App.tsx:412 | the gallery's callback sets the wallpaper |
| DeviceApp.Controller.MenuWallpaper | App.tsx:534 | the menu's Wallpaper item clicks, switches the wallpaper as NextMenuWallpaper says and closes the menu |
| DeviceApp.Controller.MenuAddWidget | App.tsx:538-544 | the menu's widget items click and add the widget, closing the menu |
| DeviceApp.Controller.MenuSettings | App.tsx:546 | the menu's Settings item clicks, opens settings and closes the menu |
| DeviceApp.Controller.RecoveryKey | App.tsx:199-205 | on the recovery screen, an arrow moves the cursor as CursorStep says; Enter on the first option presses POWER; nothing else touches the device |
| DeviceApp.RecoveryMenu.constructor | App.tsx:187 | the cursor starts on the first option |
| DeviceApp.RecoveryMenu.Key | App.tsx:200-205 | the cursor follows CursorStep and the key boots exactly when it is Enter on the first option |
| Catalog.Install | App.tsx:375-377 | installing keeps the length and every id, name and system flag, and an entry is installed afterwards exactly when it was before or carries the id |
| Catalog.InstallIdempotent | App.tsx:375-377 | installing twice is the same as installing once |
| Catalog.RemoveWidget | App.tsx:390-392 | the result is a subsequence of the widgets (order kept); every widget with the id occurs 0 times and every other as often as before; the list is unchanged when the id is absent |
| Catalog.SubsequenceKeep | App.tsx:390-392 | a common first element extends a subsequence |
| Catalog.SubsequenceSkip | App.tsx:390-392 | an element dropped in front keeps a subsequence |
| Catalog.InitialApps | App.tsx:17-41 | 23 apps with distinct ids; the first 15 are system apps, the rest are not; an app is installed exactly when it is a system app |
| Catalog.AddThenRemoveWidget | App.tsx:379-392 | removing a widget just added under a fresh id gives back the previous widgets |
| Catalog.NextMenuWallpaper | App.tsx:534 | the item always yields one of the two built-in wallpapers, and yields the blue gradient exactly when the wallpaper was black |
| Catalog.MenuWallpaperTwice | App.tsx:534 | two uses of the item give black from black and the blue gradient from anything else |
| VirtualKeyboard.ApplyKey | components/Apps.tsx:13-23 | DEL drops the last character (an empty buffer stays empty), SPACE appends a space, a one-character key appends itself, ENTER keeps the buffer and is the only key that submits, other keys change nothing |
| VirtualKeyboard.TypeWordAppends | components/Apps.tsx:19-21 | typing a word key by key appends exactly that word |
| VirtualKeyboard.DelUndoesChar | components/Apps.tsx:14-21 | DEL after a typed character restores the buffer |
| VirtualKeyboard.DelOnEmpty | components/Apps.tsx:14-15 | DEL on an empty buffer leaves it empty |
| Recorder.Digit | components/Apps.tsx:389 | a digit value below ten is shown as the matching decimal digit character |
| Recorder.DigitRoundTrip | components/Apps.tsx:389 | a digit character reads back as its value |
| Recorder.Decimal | components/Apps.tsx:389 | a number is shown as a non-empty string of decimal digits, a single one exactly below ten, with no leading zero except for 0 itself (with DecimalRoundTrip this is the canonical form) |
| Recorder.DecimalRoundTrip | components/Apps.tsx:389 | the decimal form reads back as the number |
| Recorder.TwoDigits | components/Apps.tsx:388-389 | the seconds field has exactly two digits, the first in 0..5, and reads back as the seconds |
| Recorder.FormatTime | components/Apps.tsx:386-390 | formatTime is the minutes in decimal, a colon, then the seconds as two digits in 00..59 |
| Recorder.FormatTimeRoundTrip | components/Apps.tsx:386-390 | reading the display back gives the elapsed seconds, so no two durations look alike |
| Recorder.RecorderScreen.constructor | components/Apps.tsx:373-374 | the recorder starts stopped at 0 seconds |
| Recorder.RecorderScreen.ToggleRecording | components/Apps.tsx:376-384 | the button flips recording and the counter starts from 0 |
| Recorder.RecorderScreen.Tick | components/Apps.tsx:379 | a tick adds one second while recording and keeps the counter at 0 otherwise |
| Recorder.RecorderScreen.Display | components/Apps.tsx:386-390 | the screen shows FormatTime of the counter, which reads back as the counter |
| Calculator.FirstIndex | components/Apps.tsx:886 | the position of the first occurrence, or the length when there is none |
| Calculator.ReplaceFirst | components/Apps.tsx:886 | as written: only the first 'x' is replaced, every other character is kept |
| Calculator.ReplaceAll | components/Apps.tsx:886 | as intended: every 'x' is replaced and every other character is kept |
| Calculator.ReplaceFirstMissesSecondTimes | components/Apps.tsx:886 | "3x4x2" becomes "3*4x2", which still holds an 'x' |
| Calculator.ReplaceFirstKeepsLaterTimes | components/Apps.tsx:886 | as written, every 'x' after the first survives |
| Calculator.ReplaceAllLeavesNoTimes | components/Apps.tsx:886 | after replacing all, no 'x' is left |
| Calculator.Expression | components/Apps.tsx:886 | as written: the text handed to the evaluator has the display's length, its first 'x' turned into '*' and every other character kept |
| Calculator.IntendedExpression | components/Apps.tsx:886 | as intended: the same length, every 'x' turned into '*', every other character kept, so no 'x' is left |
| Calculator.ExpressionsAgreeWithOneTimes | components/Apps.tsx:886 | with at most one 'x' on the display, the code and the intended version hand the same text to the evaluator |
| Calculator.Press | components/Apps.tsx:878-900 | as written: C shows "0"; = shows the evaluator's result on Expression of the display (first 'x' replaced only) or "Error"; the reset flag is set exactly by =; other keys replace a "0" or reset display and otherwise append |
| Calculator.KeyAfterEqualsStartsAfresh | components/Apps.tsx:883-898 | a key after = starts a new number whether evaluation succeeded or failed |
| Calculator.PressIntended | components/Apps.tsx:878-900 | as intended: every key but = behaves as Press; = evaluates the display with every 'x' replaced, shows the result or "Error" and sets reset |
| Calculator.PressAgreesWithOneTimes | components/Apps.tsx:878-900 | with at most one 'x' on the display, Press and PressIntended agree on every key |
| Calculator.TimesTwiceShowsError | components/Apps.tsx:886-890 | as written, = on "3x4x2" shows "Error" whenever the evaluator rejects "3*4x2" |
| Calculator.TimesAfterZeroFormsHex | components/Apps.tsx:886 | as written, "3x0x12" reaches the evaluator as "3*0x12", where the leftover `x` follows a lone 0 |
| Calculator.TimesTwiceEvaluates | components/Apps.tsx:886-890 | as intended, = on "3x4x2" shows the evaluator's value of "3*4*2" |
| Calculator.KeysAppend | components/Apps.tsx:893-898 | single-character keys typed onto a number in progress (any display other than "" and "0", not reset) are appended in order |
| Calculator.CalculatorScreen.constructor | components/Apps.tsx:875-876 | the display starts at "0" without reset |
| Calculator.CalculatorScreen.Handle | components/Apps.tsx:878-900 | a key updates display and reset as Press (the code as written) says |
| Messaging.TrimStart | components/Apps.tsx:937 | leading white space is removed and nothing more |
| Messaging.TrimEnd | components/Apps.tsx:937 | trailing white space is removed and nothing more |
| Messaging.Trim | components/Apps.tsx:937 | the result is a slice of the input with only white space before and after it, and it neither starts nor ends with white space |
| Messaging.HasText | components/Apps.tsx:936-938 | the trimmed input is truthy exactly when some character is not ECMAScript white space or a line terminator |
| Messaging.TrimEmptyIffAllSpace | components/Apps.tsx:937 | an input is blank exactly when every character is ECMAScript white space or a line terminator |
| Messaging.ChatScreen.WhatsApp | components/Apps.tsx:934 | the WhatsApp log starts with its two messages and an empty input |
| Messaging.ChatScreen.Messages | components/Apps.tsx:1207 | the Messages log starts with its welcome message and an empty input |
| Messaging.ChatScreen.Send | components/Apps.tsx:936-942 | (reached by WhatsApp's button or by ENTER) a blank input changes nothing; otherwise the untrimmed input goes at the end of the log and the input is cleared |
| Messaging.ChatScreen.Key | components/Apps.tsx:944 | keys edit the input as ApplyKey says and ENTER sends |
| Messaging.BrowserScreen.constructor | components/Apps.tsx:1000 | the history starts empty |
| Messaging.BrowserScreen.Go | components/Apps.tsx:1001-1007 | a blank input changes nothing; otherwise the untrimmed input goes in front of the history and the input is cleared |
| Messaging.BrowserScreen.Key | components/Apps.tsx:1008 | keys edit the address as ApplyKey says and ENTER goes |
| Messaging.VisitNewestFirst | components/Apps.tsx:1001-1007 | after visiting addresses in order the history lists them newest first, ahead of the older history |
| Phone.Dialer.constructor | components/Apps.tsx:820-821 | the dialer starts with no number and no call |
| Phone.Dialer.Press | components/Apps.tsx:823-826 | a key of the dial pad (1-9, *, 0, #) is appended to the number |
| Phone.Dialer.Call | components/Apps.tsx:864 | Call starts a call only when a number was entered, so a call always has a number |
| Phone.Dialer.EndCall | components/Apps.tsx:837 | End Call ends the call and keeps the number |
| Cydia.Differences | components/Apps.tsx:603-609 | the count of differing switches is at most four and zero exactly for equal tweaks |
| Cydia.ToggleTweak | components/Apps.tsx:603-609 | a known id flips exactly its own switch and an unknown id changes nothing |
| Cydia.ToggleTwiceRestores | components/Apps.tsx:603-609 | toggling the same tweak twice restores the tweaks |
| Cydia.TogglesCommute | components/Apps.tsx:603-609 | two toggles give the same tweaks in either order |
| Cydia.ToggleOnDevice | components/Apps.tsx:603-609 | the handler's four independent tests store ToggleTweak of the device's tweaks |
| Market.Listed | components/Apps.tsx:102 | the Market lists the non-system apps of the catalog in catalog order, each as often as in the catalog, and no system app |
| Market.MarketScreen.constructor | components/Apps.tsx:80 | nothing is downloading at first |
| Market.MarketScreen.Tap | components/Apps.tsx:82-93 | a disabled button does nothing; an installed app is opened; an uninstalled one is marked downloading and its timer is started |
| Market.MarketScreen.DownloadDone | components/Apps.tsx:88-91 | the oldest running timer installs its app and clears the downloading mark |
| Market.DownloadInstalls | components/Apps.tsx:88-91 | a finished download leaves the catalog as long as before, with the app listed as installed |
| Gallery.GalleryScreen.constructor | components/Apps.tsx:201-203 | the gallery starts on the grid with nothing selected and nothing loading |
| Gallery.GalleryScreen.OpenCreate | components/Apps.tsx:227 | the CREATE tile opens the create view |
| Gallery.GalleryScreen.Pick | components/Apps.tsx:236 | a tile selects its image and shows it, so the image view always has an image |
| Gallery.GalleryScreen.ToGrid | components/Apps.tsx:265-275 | Cancel and Back return to the grid |
| Gallery.GalleryScreen.Preset | components/Apps.tsx:255-256 | a preset button replaces the prompt with its text |
| Gallery.GalleryScreen.StartGenerate | components/Apps.tsx:206-209 | an empty prompt does nothing; any other prompt, blank or not, is sent and the screen loads |
| Gallery.GalleryScreen.FinishGenerate | components/Apps.tsx:210-218 | a returned image goes in front of the gallery, is selected and shown, and the prompt is cleared; with no image only the loading ends |
| Gallery.GalleryScreen.Key | components/Apps.tsx:220 | keys edit the prompt as ApplyKey says and ENTER starts a generation in any view |
| Gallery.GalleryScreen.SetWallpaper | components/Apps.tsx:274 | Set Wallpaper makes the selected image the wallpaper |
| GeminiChat.GeminiScreen.constructor | components/Apps.tsx:136-139 | the chat starts with the greeting and nothing loading |
| GeminiChat.GeminiScreen.Send | components/Apps.tsx:142-148 | a blank prompt changes nothing; otherwise the untrimmed prompt is logged, sent and the input cleared |
| GeminiChat.GeminiScreen.Receive | components/Apps.tsx:150-151 | the answer or its fallback text is logged and loading ends; no logged answer is empty |
| GeminiChat.GeminiScreen.Key | components/Apps.tsx:155 | keys edit the prompt as ApplyKey says and ENTER sends |
| PowerControl.Flip | components/Widgets.tsx:60-64 | toggle(i) negates entry i, keeps every other entry and the length |
| PowerControl.FlipTwice | components/Widgets.tsx:60-64 | toggling the same switch twice restores the switches |
| PowerControl.FlipCount | components/Widgets.tsx:60-64 | a toggle turns exactly one switch on or off |
| PowerControl.PowerControlWidget.constructor | components/Widgets.tsx:57 | the widget starts with wifi, gps and brightness on |
| PowerControl.PowerControlWidget.Toggle | components/Widgets.tsx:60-64 | the copied, written and stored array is Flip of the old one, still five entries long |
| Gemini.LastSplit | services/geminiService.ts:47 | the largest position where `(.+);base64,(.+)` can split the text, or none when there is no such position |
| Gemini.BuildDataUrl | services/geminiService.ts:34 | the URL is `data:`, the mime type, `;base64,` and the data, in that order and nothing else |
| Gemini.ParseDataUrl | services/geminiService.ts:47-51 | no match exactly when the text is not `data:` + a single line with a split position; a match rebuilds the text from non-empty single-line groups, and no later split exists (greedy first group) |
| Gemini.OnlySplit | services/geminiService.ts:47-51 | a built URL whose data holds no marker can only be split right after its mime type |
| Gemini.RoundTrip | services/geminiService.ts:34-51 | building a URL and parsing it recovers mime and data when both are non-empty single-line strings and data has no `;base64,` followed by text |
| Gemini.Base64RoundTrip | services/geminiService.ts:34-51 | any base64 payload with a non-empty single-line mime type survives the build and the parse |
| Gemini.GreedySplit | services/geminiService.ts:47-51 | a `;base64,` inside the data moves into the parsed mime type |
| Gemini.ReplyParts | services/geminiService.ts:32 | the loop sees the first candidate's parts when it has content and parts, and no parts when candidates, the first candidate, its content or its parts are missing |
| Gemini.FirstInline | services/geminiService.ts:32-36 | the result is absent exactly when no part has inline data, and otherwise is the inline data of the first part that has it |
| Gemini.ImageUrl | services/geminiService.ts:32-41 | a thrown call or a reply without an inline part gives null; otherwise the data URL of the first inline part, which starts with `data:` |
| Gemini.GenerateImage | services/geminiService.ts:23-42 | generateImage sends the prompt as a single text part and returns a data URL or null |
| Gemini.EditRequest | services/geminiService.ts:53-66 | the edit request carries the parsed mime and data as its first part and the prompt as its second |
| Gemini.EditImage | services/geminiService.ts:44-77 | an image that does not match gives null without a request; otherwise the first image of the reply to the edit request |
| Gemini.GeneratedImageEditable | services/geminiService.ts:32-51 | an image generateImage returned with a mime type and base64 data is handed by editImage to the service with exactly that mime type and data |
| Gemini.GenerateResponse | services/geminiService.ts:6-20 | the reply text when non-empty, "No response received." when empty or missing, the connection-error text when the call threw; never empty |

## Left out

- Sound: the oscillators of the sound service are not modelled. The controller records only the click and unlock cues. The app screens' own click and typing sounds are not recorded.
- Presentation: rendering, icons (`components/Icon.tsx` is not part of this model), themes, the status bar, the wallpaper style, and the settings screen's controls.
- The mini-game, the analog clock widget, the clock app, and the time and date interval and their locale formatting: these use floating point, `Date`, random numbers and canvas drawing.
- `eval` in the calculator is an abstract evaluator passed as a parameter. It returns a value string or nothing (for a thrown error).
- Network calls: the generative service is a parameter from requests to replies. The text request's model name and thinking configuration are not modelled. A reply's `text` is taken as given.
- Real timers: `setTimeout` and `setInterval` are replaced by explicit event methods. The battery interval's period (500 ms charging, 25000 ms draining) and the recorder's one-second interval are not tied to the virtual clock. The 800 ms long-press timer and its cancellation are folded into the one `LongPress` event.
- Widget ids come from `Math.random()` and are parameters.
- The WhatsApp list and chat view switch, the Magisk and Music toggles, and the contacts, camera, maps, email, calendar, VK and launcher screens are left out: they only render or toggle a flag for rendering. The camera's capture is only represented by `AddGalleryImage`.
- Lengths: the keyboard's one-character test counts UTF-16 code units in JavaScript. The model counts characters, so an astral character differs.
- Market.MarketScreen.Tap: the two-second download timers are a queue in tap order. This order holds because every timer has the same delay.
- Gallery.GalleryScreen.FinishGenerate: the model tests that an image URL is present. The source tests the string for truthiness, which is the same because a returned URL always starts with `data:`.
- Messaging.ChatScreen.Send: the model lets either chat screen call it. On the Messages screen the Send button has no handler, so only `Key("ENTER")` models a real action there.
- Gemini.ParseDataUrl: the regular expression is decided by the characters of the string. JavaScript's UTF-16 code units are not modelled.

## Findings

| source | as written | input that shows it | evidently intended | confidence | as-written member | corrected member |
|---|---|---|---|---|---|---|
| components/Apps.tsx:886 | `display.replace('x', '*')` replaces only the first `x`, so a display with two multiplications reaches the evaluator with an `x` left in it. Usually the evaluator throws and the screen shows "Error"; when the leftover `x` follows a lone `0` it forms a hexadecimal literal and the screen shows a wrong number | display "3x4x2" becomes "3*4x2" ("Error"); display "3x0x12" becomes "3*0x12" (54 instead of 0) | every `x` becomes `*` before evaluation, so "3x4x2" evaluates as 3*4*2 | high; not executed | Calculator.TimesTwiceShowsError | Calculator.TimesTwiceEvaluates |

# Rings watch face: settings and derived values

A model of the logic in `src/main.c` of a Pebble watch face that shows the time as two rings, one for the minutes and one for the hours. A horizontal line across the centre can show the battery level, and two text lines show the weekday and the day of the month.

The face keeps eight user settings in static globals:

- a background and a foreground colour;
- which centre line to draw (battery, static or none);
- whether to show the date;
- whether to vibrate when Bluetooth disconnects;
- whether to use random colours.

It persists these settings in the watch's key/value store under the keys `KEY_*` = 0..7. From them it derives the displayed colours, the ring angles, the centre-line length and the date texts.

The model is split into modules:

- `Pebble` holds the platform's value types: colours as `GColor8` bytes, 32-bit integers, battery percentages and the fields of `struct tm`. It also holds the library calls the face makes, as the function-valued fields of `Platform`: `rand`, `gcolor_legible_over`, `GColorFromHEX` and `strftime`'s `%a`.
- `Colors` models `random_color`.
- `Clock` models the two sweep angles computed by `ring_update_proc`. The `double` expressions are computed in exact arithmetic and then truncated. This differs from the C at a few times, listed under "## Left out".
- `CentreLine` models the centre-line choice and length of `battery_update_proc`.
- `DateText` models the two texts written by `update_date`.
- `Config` holds the keys, the eight settings, and how they are encoded in an inbound message and in the store. It also defines `LoadSettings`, which says what `window_load` reads back and what it uses as defaults.
- `FaceState` describes the whole state as a value, with one function per event handler:
  - `SetColorsSpec` for `set_colors`;
  - `RingRedrawSpec` for the hourly colour re-roll in `ring_update_proc`;
  - `InboxSpec` for `inbox_received_handler`, built from the eight key blocks in source order;
  - `LoadSpec` for `window_load`.

  The lemmas of `FaceState` prove the properties of these handlers:
  - A present key is set in memory and in the store to the same value.
  - An absent key leaves both alone.
  - A background, foreground or random-colour key re-runs `set_colors`. The colours then match the settings, and in random mode the background is `random_color` of a draw taken from a generator state reached from the one before the message. The generator only moves forward.
  - Without such a key, the colours and the generator are untouched.
  - Persisting and then loading round-trips.
  - Settings that agree with the store still agree after any sequence of messages, so a restart reloads exactly the settings held in memory. In random mode the shown colours are drawn again rather than restored.
- `Face.Face` is the face's global state as an object. Its methods update the fields in place, as the C handlers do.
  - Each state-changing handler (`SetColors`, `UpdateColors`, `RingUpdate`, `UpdateDate`, `TickHandler`, the eight `Receive*` blocks, `InboxReceived`, `WindowLoad`) is proved to leave the object in the state that the matching `FaceState` function describes. Each keeps the displayed colours consistent with the settings (`Valid`).
  - `BatteryCallback`, `LoadColorSettings` and `LoadFlags` state their new fields directly.
  - `Rand` states its result and the generator's next state.
  - `BluetoothCallback` and `BatteryUpdate` change nothing and state their results.

### The phone-side settings page and the watch code differ

The settings page in `src/pkjs/config.js` belongs to a later revision than `src/main.c`:

- It offers colour modes ("True Random" and random dark, light, hot and cold palettes), chosen by string tokens.
- It offers complication lines and a disconnect icon.
- Its "True Random" option suggests a draw from every opaque colour.

`src/main.c` has none of these, and the model follows it:

- The settings are six booleans and two colours.
- The date lines are the weekday and the day of the month.
- `random_color` reduces `rand()` modulo `0b00111111` = 63. It therefore produces the 63 colours 0xC0..0xFE, never white (0xFF), rather than all 64 opaque colours.

## Model

| member | source | states |
|---|---|---|
| Colors.RandomColor | src/main.c:27-32 | a random colour is always opaque (both alpha bits set) with `argb` between 0xC0 and 0xFE |
| Colors.RandomColorImage | src/main.c:31 | the colours `random_color` can return are exactly 0xC0..0xFE; white is never produced |
| Clock.Hour12 | src/main.c:73 | the folded hour is in [0, 11] and equals the 24-hour hour modulo 12 |
| Clock.MinuteAngle | src/main.c:75 | the minute ring sweeps 6 degrees per minute, between 0 and 354 |
| Clock.HourAngle | src/main.c:77 | the hour ring sweeps half a degree per minute of the 12-hour day, between 0 and 359 |
| Clock.ClockAngles | src/main.c:69-77 | both angles of a wall-clock time stay within their ranges |
| Clock.HourFollowsMinute | src/main.c:75-77 | the hour angle is 30 degrees per hour plus a twelfth of the minute angle |
| Clock.HourAngleMonotone | src/main.c:69-77 | within one 12-hour half, a later time never has a smaller hour angle |
| Clock.HalfDayPeriodic | src/main.c:72-77 | times twelve hours apart show the same angles |
| Clock.MidnightAngles | src/main.c:69-77 | 00:00 shows minute angle 0 and hour angle 0 |
| Clock.SixOClockAngles | src/main.c:69-77 | 06:00 shows minute angle 0 and hour angle 180 |
| Clock.HalfPastMidnightAngles | src/main.c:69-77 | 00:30 shows minute angle 180 and hour angle 15 |
| CentreLine.BatteryHalfLength | src/main.c:99 | the battery line's half-length never exceeds a sixth of the width; it is a full sixth at 100 % and zero at 0 % |
| CentreLine.HalfBarLength | src/main.c:95-103 | no line exactly when no-line is set; otherwise battery, then static, then zero length, in that priority, never longer than a sixth of the width |
| CentreLine.BatteryLineMonotone | src/main.c:99 | a fuller battery never draws a shorter battery line |
| DateText.TwoDigits | src/main.c:121 | the day of the month is written as exactly two decimal digits |
| DateText.TwoDigitsRoundTrip | src/main.c:121 | reading the two digits back gives the day of the month |
| DateText.DateLines | src/main.c:117-121 | with the date off both lines are empty; with it on they are the weekday abbreviation and two decimal digits that read back as the day; each fits its buffer |
| Config.Int8Of | src/main.c:157 | a flag read through `value->int8` is a signed byte, which is zero exactly when the payload's low byte is zero |
| Config.Persisted | src/main.c:144-183 | a colour is stored as received; a flag is stored as 1 when its int8 value is non-zero and as 0 otherwise |
| Config.LoadSettings | src/main.c:190-210 | each setting from its own key (`GColorFromHEX` for colours, non-zero for flags) or its default; its per-key meaning is stated by `LoadField` |
| Config.PersistedReadsBack | src/main.c:205-210 | reading a stored entry back gives the setting the inbox handler kept in memory |
| Config.LoadField | src/main.c:190-210 | each loaded setting comes from its own key when that key is stored and is its default otherwise |
| Config.LoadEmptyStore | src/main.c:190-210 | with nothing stored: blue on white, battery line on, static line off, no-line off, date shown, vibration on, random colours on |
| Config.LoadIndependent | src/main.c:190-210 | changing the entry under one key changes no other loaded setting |
| FaceState.UpdateDateSpec | src/main.c:113-125 | both date lines become `DateLines` of the show-date flag and the time (empty when the flag is off); nothing else changes |
| FaceState.SetColorsSpec | src/main.c:34-37 | user colours when random colours are off, else a fresh random background with a legible foreground; settings, store and battery untouched; the generator advances only in random mode |
| FaceState.RingRedrawSpec | src/main.c:79-80 | a redraw re-rolls the colours exactly when random colours are on and the minute is 0; otherwise the state is unchanged; settings, store, battery level and date lines are never touched |
| FaceState.LoadSpec | src/main.c:189-212 | after loading, the settings are what the store gives and the colours agree with them; in random mode the background is a new draw from the generator, otherwise the generator is untouched |
| FaceState.BackgroundBlock | src/main.c:142-148 | store the value, adopt `GColorFromHEX` of it, then `set_colors`; its effect is stated by `ApplyKeyEffect` and `ApplyKeyDerived` |
| FaceState.ForegroundBlock | src/main.c:149-155 | store the value, adopt `GColorFromHEX` of it, then `set_colors` |
| FaceState.BatteryLineBlock | src/main.c:156-160 | adopt the flag and store it as 0/1 |
| FaceState.StaticLineBlock | src/main.c:161-165 | adopt the flag and store it as 0/1 |
| FaceState.NoLineBlock | src/main.c:166-170 | adopt the flag and store it as 0/1 |
| FaceState.ShowDateBlock | src/main.c:171-175 | adopt the flag, store it as 0/1, then `update_date` |
| FaceState.BluetoothVibesBlock | src/main.c:176-180 | adopt the flag and store it as 0/1, twice |
| FaceState.RandomColorBlock | src/main.c:181-186 | adopt the flag, store it as 0/1, then `set_colors` |
| FaceState.InboxSpec | src/main.c:132-187 | the handler as the fold of the eight blocks over the keys 0..7 in source order; its meaning is stated by `InboxWrites`, `InboxColors`, `InboxDateLines` and `InboxKeepsStoreInSync` |
| FaceState.InboxSteps | src/main.c:142-186 | the handler is the eight key blocks, one after the other, in source order |
| FaceState.ApplyKeyEffect | src/main.c:142-186 | a key block sets exactly its own setting and its own store entry |
| FaceState.ApplyKeyDerived | src/main.c:142-186 | the colour and random-colour blocks re-run `set_colors`: colours consistent afterwards and, in random mode, a new draw from the generator, otherwise the generator untouched; the show-date block rewrites the date lines; no other block touches colours, generator or date lines |
| FaceState.StepEffect | src/main.c:142-186 | a present key sets its own setting and store entry; an absent key changes neither, nor the battery level |
| FaceState.ProcessSettings | src/main.c:132-187 | after the blocks of a list of keys, each present key's setting is its inbound value and every other setting is unchanged |
| FaceState.StoreAfterWritten | src/main.c:144-183 | persisting the keys one by one adds exactly the entries for the present keys |
| FaceState.ProcessStore | src/main.c:132-187 | the blocks persist their keys one by one |
| FaceState.InboxWrites | src/main.c:132-187 | each present key is written to memory and to the store under the same key; absent keys and all other entries keep their values |
| FaceState.ProcessColors | src/main.c:132-187 | the colours stay consistent with the settings and become consistent when a colour key is present; the generator ends some number of draws past its start; in random mode after a colour key the background is `random_color` of the last of those draws; with no colour key, colours and generator are untouched |
| FaceState.ProcessDateLines | src/main.c:171-175 | the date lines are rewritten from the inbound show-date flag when that key is present, and are untouched otherwise |
| FaceState.InboxColors | src/main.c:132-187 | a background, foreground or random-colour key re-picks the colours: they match the settings and, in random mode, the background is `random_color` of the last draw the handler made from the generator state it started with; the generator only moves forward; without such a key, colours and generator are untouched |
| FaceState.InboxDateLines | src/main.c:171-175 | a show-date key rewrites both date lines from the new flag; without one they are untouched |
| FaceState.PersistThenLoad | src/main.c:132-210 | for every key in a message, a later load gives the value the handler kept in memory |
| FaceState.InboxKeepsStoreInSync | src/main.c:132-210 | settings that equal a load of the store still do after the handler |
| FaceState.InboxAllKeepsStoreInSync | src/main.c:132-187 | the same holds after any sequence of messages |
| FaceState.ReloadRestoresSettings | src/main.c:132-212 | load, then any messages, then a reload: the reload gives exactly the settings that were in memory |
| Face.Face.constructor | src/main.c:20-25 | the globals start zeroed, with the store as persisted and the generator as seeded |
| Face.Face.Rand | src/main.c:31 | one `rand()` draw returns the generator's value and advances its state |
| Face.Face.SetColors | src/main.c:34-37 | the object ends in `SetColorsSpec` of its old state, with the colours consistent |
| Face.Face.UpdateColors | src/main.c:39-49 | the state effect is that of `set_colors` |
| Face.Face.BatteryCallback | src/main.c:51-54 | only the battery level changes, to the reported charge |
| Face.Face.BluetoothCallback | src/main.c:56-60 | a vibration is requested exactly when the watch disconnected and vibration is on |
| Face.Face.RingUpdate | src/main.c:62-90 | returns the two angles of the time and leaves the object in `RingRedrawSpec` of its old state |
| Face.Face.BatteryUpdate | src/main.c:92-111 | returns the centre line's half-length, or none, as `HalfBarLength` chooses from the current flags |
| Face.Face.UpdateDate | src/main.c:113-125 | the date lines become `DateLines` of the show-date flag and the time; nothing else changes |
| Face.Face.TickHandler | src/main.c:127-130 | the state effect is that of `update_date` |
| Face.Face.ReceiveBackgroundColor | src/main.c:142-148 | with the key present: store, adopt and re-pick colours; otherwise no change |
| Face.Face.ReceiveForegroundColor | src/main.c:149-155 | with the key present: store, adopt and re-pick colours; otherwise no change |
| Face.Face.ReceiveBatteryLine | src/main.c:156-160 | with the key present: adopt the flag and store it as 0/1; otherwise no change |
| Face.Face.ReceiveStaticLine | src/main.c:161-165 | with the key present: adopt the flag and store it as 0/1; otherwise no change |
| Face.Face.ReceiveNoLine | src/main.c:166-170 | with the key present: adopt the flag and store it as 0/1; otherwise no change |
| Face.Face.ReceiveShowDate | src/main.c:171-175 | with the key present: adopt the flag, store it and rewrite the date lines; otherwise no change |
| Face.Face.ReceiveBluetoothVibes | src/main.c:176-180 | with the key present: adopt the flag and store it; otherwise no change |
| Face.Face.ReceiveRandomColor | src/main.c:181-186 | with the key present: adopt the flag, store it and re-pick colours; otherwise no change |
| Face.Face.InboxReceived | src/main.c:132-187 | the object ends in `InboxSpec` of its old state, with the colours consistent |
| Face.Face.LoadColorSettings | src/main.c:190-203 | each colour setting is read from its key when stored; otherwise blue for the background and white for the foreground |
| Face.Face.LoadFlags | src/main.c:205-210 | each flag is read from its key when stored, otherwise its default |
| Face.Face.WindowLoad | src/main.c:189-212 | the object ends in `LoadSpec` of its old state: settings as loaded, colours consistent with them |

## Left out

- Window, layer and text-layer creation, fonts and layout (src/main.c:214-251), and `window_unload`, `init`, `deinit`, `main`, service subscriptions and `app_message_open` (src/main.c:253-296): these are user-interface and event-loop plumbing.
- All drawing: `graphics_fill_radial`, `graphics_draw_line`, stroke and fill colours, `window_set_background_color` and `text_layer_set_text_color`. Every `layer_mark_dirty` redraw request is also left out. These are rendering side effects with no state of the face's own.
- Face.Face.UpdateColors: states only the `set_colors` part of `update_colors`. It does not model handing the colours to the text layers and the window.
- Face.Face.RingUpdate: returns the angles instead of drawing them. It does not model the ring bounds and insets.
- Face.Face.BatteryUpdate: returns the half-length instead of drawing the line. It does not model the centre point.
- Clock.MinuteAngle: uses exact arithmetic, so it does not model IEEE-754 rounding of `360 * (minute / 60.0)` before truncation. In binary64, `360 * (21 / 60.0)` is 125.99999999999999 and truncates to 125, and minute 42 gives 251. The model gives 126 and 252, so "6 degrees per minute" does not hold of the C program at those two minutes.
- Clock.HourAngle: uses exact arithmetic, so it does not model IEEE-754 rounding of `360 * ((hour + minute / 60.0) / 12.0)` before truncation. In binary64 the C value is one degree lower than the model's at 37 of the 720 times of a half day. Examples: 00:42 gives 20 (model 21), 01:24 gives 41 (model 42), 02:02 gives 60 (model 61) and 08:02 gives 240 (model 241). The ranges, the monotonicity within a half day and the three example times hold of the C values as well.
- Clock.HourFollowsMinute: relates the two exact-arithmetic functions and does not hold of the binary64 values. There, `30 * hour + minute_angle / 12` differs from C's hour angle at 45 of the 720 times of a half day, in both directions. At 35 of them C is one degree lower, e.g. 01:24 gives 41 in C against 42 from the relation. At 10 of them C is one degree higher, all at minute 42, whose C minute angle is also one lower; e.g. 01:42 gives 51 in C against 50.
- CentreLine.BatteryHalfLength: uses exact arithmetic, so it does not model IEEE-754 rounding of `battery_level / 100.0`. A product that lands just below a whole number would truncate one lower in C. In binary64 this does not happen for widths 144, 168, 180, 200 or 260 at any level from 0 to 100.
- `rand`/`srand`, `gcolor_legible_over`, `GColorFromHEX` and the `%a` of `strftime` are library code outside this model. They are function parameters whose only property is their type. The generator is a state `rng` with `rand`/`next` functions, and `srand(time(NULL))` becomes the constructor's seed.
- `time` and `localtime` are replaced by a `Tm` argument. `ring_update_proc` and `update_date` each read the clock themselves; the model passes in the time they read.
- `vibes_double_pulse` is replaced by the boolean that `BluetoothCallback` returns.
- Config.Int8Of: reads `value->int8` of a 32-bit tuple as the signed low byte of the payload, as on a little-endian CPU. Other tuple types and sizes are not modelled.
- `persist_read_bool` of an entry written by `persist_write_int` is modelled as "the stored integer is not zero". The store has no size limit and writes never fail.
- DateText.DateLines: `%a` is whatever the platform's locale gives, limited to 7 characters. `%d` is two zero-padded digits, which always fit the 4-byte buffer, so truncation never occurs.
- src/config.js and src/pkjs/config.js (the phone-side settings page and its messaging) are not part of this model.

/** The watch face's global state (src/main.c:20-25) as an object whose event
    handlers update its fields in place, each proved against the function of
    `FaceState` that describes it. */
module Face {
  import opened Pebble
  import opened Config
  import opened Colors
  import opened Clock
  import opened CentreLine
  import opened DateText
  import opened FaceState

  class Face {
    /** The library calls the face makes. */
    const platform: Platform

    var backgroundColor: Color
    var foregroundColor: Color
    var bgColorSettings: Color
    var fgColorSettings: Color
    var batteryLevel: Percent
    var batteryLine: bool
    var staticLine: bool
    var noLine: bool
    var showDate: bool
    var bluetoothVibes: bool
    var randomColor: bool
    /** The state of the generator behind `rand()`. */
    var rng: nat
    /** The persistent key/value store. */
    var store: map<int, Int32>
    /** The texts shown by the two date layers. */
    var dateLineOne: string
    var dateLineTwo: string

    /** The abstract value of the object. */
    ghost function Snapshot(): State
      reads this
    {
      State(
        Settings(bgColorSettings, fgColorSettings, batteryLine, staticLine, noLine, showDate, bluetoothVibes, randomColor),
        backgroundColor, foregroundColor, batteryLevel, rng, store, dateLineOne, dateLineTwo)
    }

    /** The displayed colours always agree with the colour settings. */
    ghost predicate Valid()
      reads this
    {
      ColorsConsistent(platform, Snapshot())
    }

    /** The globals as C zero-initialises them, the store as persisted by an earlier
        run, and the generator as `srand(time(NULL))` seeded it. */
    constructor (platform: Platform, persisted: map<int, Int32>, seed: nat)
      ensures Valid()
      ensures this.platform == platform
      ensures Snapshot() == State(Settings(ColorClear, ColorClear, false, false, false, false, false, false),
                                  ColorClear, ColorClear, 0, seed, persisted, "", "")
    {
      this.platform := platform;
      backgroundColor, foregroundColor := ColorClear, ColorClear;
      bgColorSettings, fgColorSettings := ColorClear, ColorClear;
      batteryLevel := 0;
      batteryLine, staticLine, noLine := false, false, false;
      showDate, bluetoothVibes, randomColor := false, false, false;
      rng := seed;
      store := persisted;
      dateLineOne, dateLineTwo := "", "";
    }

    /** `rand()`: one draw from the generator. */
    method Rand() returns (r: nat)
      modifies this`rng
      ensures r == platform.rand(old(rng)) && rng == platform.next(old(rng))
    {
      r := platform.rand(rng);
      rng := platform.next(rng);
    }

    /** `set_colors`. */
    method SetColors()
      modifies this`backgroundColor, this`foregroundColor, this`rng
      ensures Valid()
      ensures Snapshot() == SetColorsSpec(platform, old(Snapshot()))
    {
      if randomColor {
        var r := Rand();
        backgroundColor := RandomColor(r);
      } else {
        backgroundColor := bgColorSettings;
      }
      foregroundColor := if randomColor then platform.legibleOver(backgroundColor) else fgColorSettings;
    }

    /** `update_colors`: `set_colors`, then the colours are handed to the layers and the window. */
    method UpdateColors()
      modifies this`backgroundColor, this`foregroundColor, this`rng
      ensures Valid()
      ensures Snapshot() == SetColorsSpec(platform, old(Snapshot()))
    {
      SetColors();
    }

    /** `battery_callback`. */
    method BatteryCallback(chargePercent: Percent)
      modifies this`batteryLevel
      ensures Snapshot() == old(Snapshot()).(batteryLevel := chargePercent)
    {
      batteryLevel := chargePercent;
    }

    /** `bluetooth_callback`: whether a double vibration is requested. */
    method BluetoothCallback(connected: bool) returns (vibrate: bool)
      ensures vibrate <==> !connected && bluetoothVibes
    {
      vibrate := false;
      if !connected && bluetoothVibes {
        vibrate := true;
      }
    }

    /** `ring_update_proc`: the two sweep angles for time `t`, after re-rolling the
        colours when random colours are on and it is the top of the hour. */
    method RingUpdate(t: Tm) returns (angles: Angles)
      requires Valid() && t.Valid()
      modifies this
      ensures Valid()
      ensures angles == ClockAngles(t.hour, t.minute)
      ensures Snapshot() == RingRedrawSpec(platform, old(Snapshot()), t)
    {
      var minute := t.minute;
      var hour := t.hour;
      if hour >= 12 {
        hour := hour - 12;
      }
      var minuteAngle := MinuteAngle(minute);
      var hourAngle := HourAngle(hour, minute);
      if randomColor && minute == 0 {
        UpdateColors();
      }
      angles := Angles(minuteAngle, hourAngle);
    }

    /** `battery_update_proc`: half the length of the centre line on a layer
        `width` pixels wide, or `None` when no line is drawn. */
    method BatteryUpdate(width: nat) returns (halfBar: Option<nat>)
      ensures halfBar == HalfBarLength(noLine, batteryLine, staticLine, width, batteryLevel)
    {
      if !noLine {
        var halfBarLength := 0;
        if batteryLine {
          halfBarLength := BatteryHalfLength(width, batteryLevel);
        } else if staticLine {
          halfBarLength := width / 6;
        }
        halfBar := Some(halfBarLength);
      } else {
        halfBar := None;
      }
    }

    /** `update_date`. */
    method UpdateDate(t: Tm)
      requires t.Valid()
      modifies this`dateLineOne, this`dateLineTwo
      ensures Snapshot() == UpdateDateSpec(platform, old(Snapshot()), t)
    {
      var lines := DateLines(platform, showDate, t);
      dateLineOne := lines.0;
      dateLineTwo := lines.1;
    }

    /** `tick_handler`: refresh the date lines (and request a ring redraw). */
    method TickHandler(t: Tm)
      requires t.Valid()
      modifies this`dateLineOne, this`dateLineTwo
      ensures Snapshot() == UpdateDateSpec(platform, old(Snapshot()), t)
    {
      UpdateDate(t);
    }

    /** The background-colour block of `inbox_received_handler`. */
    method ReceiveBackgroundColor(msg: map<int, Int32>, t: Tm)
      requires Valid() && t.Valid()
      modifies this`store, this`bgColorSettings, this`backgroundColor, this`foregroundColor, this`rng
      ensures Valid()
      ensures Snapshot() == Step(platform, old(Snapshot()), msg, KeyBackgroundColor, t)
    {
      if KeyBackgroundColor in msg {
        var hex := msg[KeyBackgroundColor];
        store := store[KeyBackgroundColor := hex];
        bgColorSettings := platform.fromHex(hex);
        UpdateColors();
      }
    }

    /** The foreground-colour block of `inbox_received_handler`. */
    method ReceiveForegroundColor(msg: map<int, Int32>, t: Tm)
      requires Valid() && t.Valid()
      modifies this`store, this`fgColorSettings, this`backgroundColor, this`foregroundColor, this`rng
      ensures Valid()
      ensures Snapshot() == Step(platform, old(Snapshot()), msg, KeyForegroundColor, t)
    {
      if KeyForegroundColor in msg {
        var hex := msg[KeyForegroundColor];
        store := store[KeyForegroundColor := hex];
        fgColorSettings := platform.fromHex(hex);
        UpdateColors();
      }
    }

    /** The battery-line block of `inbox_received_handler`. */
    method ReceiveBatteryLine(msg: map<int, Int32>, t: Tm)
      requires Valid() && t.Valid()
      modifies this`store, this`batteryLine
      ensures Valid()
      ensures Snapshot() == Step(platform, old(Snapshot()), msg, KeyBatteryLine, t)
    {
      if KeyBatteryLine in msg {
        var v := msg[KeyBatteryLine];
        batteryLine := Int8Of(v) != 0;
        store := store[KeyBatteryLine := BoolToInt(batteryLine)];
      }
    }

    /** The static-line block of `inbox_received_handler`. */
    method ReceiveStaticLine(msg: map<int, Int32>, t: Tm)
      requires Valid() && t.Valid()
      modifies this`store, this`staticLine
      ensures Valid()
      ensures Snapshot() == Step(platform, old(Snapshot()), msg, KeyStaticLine, t)
    {
      if KeyStaticLine in msg {
        var v := msg[KeyStaticLine];
        staticLine := Int8Of(v) != 0;
        store := store[KeyStaticLine := BoolToInt(staticLine)];
      }
    }

    /** The no-line block of `inbox_received_handler`. */
    method ReceiveNoLine(msg: map<int, Int32>, t: Tm)
      requires Valid() && t.Valid()
      modifies this`store, this`noLine
      ensures Valid()
      ensures Snapshot() == Step(platform, old(Snapshot()), msg, KeyNoLine, t)
    {
      if KeyNoLine in msg {
        var v := msg[KeyNoLine];
        noLine := Int8Of(v) != 0;
        store := store[KeyNoLine := BoolToInt(noLine)];
      }
    }

    /** The show-date block of `inbox_received_handler`. */
    method ReceiveShowDate(msg: map<int, Int32>, t: Tm)
      requires Valid() && t.Valid()
      modifies this`store, this`showDate, this`dateLineOne, this`dateLineTwo
      ensures Valid()
      ensures Snapshot() == Step(platform, old(Snapshot()), msg, KeyShowDate, t)
    {
      if KeyShowDate in msg {
        var v := msg[KeyShowDate];
        showDate := Int8Of(v) != 0;
        store := store[KeyShowDate := BoolToInt(showDate)];
        UpdateDate(t);
      }
    }

    /** The vibration block of `inbox_received_handler`, which persists its flag twice. */
    method ReceiveBluetoothVibes(msg: map<int, Int32>, t: Tm)
      requires Valid() && t.Valid()
      modifies this`store, this`bluetoothVibes
      ensures Valid()
      ensures Snapshot() == Step(platform, old(Snapshot()), msg, KeyBluetoothVibes, t)
    {
      if KeyBluetoothVibes in msg {
        var v := msg[KeyBluetoothVibes];
        bluetoothVibes := Int8Of(v) != 0;
        store := store[KeyBluetoothVibes := BoolToInt(bluetoothVibes)];
        store := store[KeyBluetoothVibes := BoolToInt(bluetoothVibes)];
      }
    }

    /** The random-colour block of `inbox_received_handler`. */
    method ReceiveRandomColor(msg: map<int, Int32>, t: Tm)
      requires Valid() && t.Valid()
      modifies this`store, this`randomColor, this`backgroundColor, this`foregroundColor, this`rng
      ensures Valid()
      ensures Snapshot() == Step(platform, old(Snapshot()), msg, KeyRandomColor, t)
    {
      if KeyRandomColor in msg {
        var v := msg[KeyRandomColor];
        randomColor := Int8Of(v) != 0;
        store := store[KeyRandomColor := BoolToInt(randomColor)];
        UpdateColors();
      }
    }

    /** `inbox_received_handler`: the block of each key present in `msg` runs, in
        the order of the source. */
    method InboxReceived(msg: map<int, Int32>, t: Tm)
      requires Valid() && t.Valid()
      modifies this
      ensures Valid()
      ensures Snapshot() == InboxSpec(platform, old(Snapshot()), msg, t)
    {
      ReceiveBackgroundColor(msg, t);
      ReceiveForegroundColor(msg, t);
      ReceiveBatteryLine(msg, t);
      ReceiveStaticLine(msg, t);
      ReceiveNoLine(msg, t);
      ReceiveShowDate(msg, t);
      ReceiveBluetoothVibes(msg, t);
      ReceiveRandomColor(msg, t);
      InboxSteps(platform, old(Snapshot()), msg, t);
    }

    /** The colour part of `window_load`: each colour setting from the store, or its default. */
    method LoadColorSettings()
      modifies this`bgColorSettings, this`fgColorSettings
      ensures bgColorSettings == ReadColor(platform, store, KeyBackgroundColor, ColorBlue)
      ensures fgColorSettings == ReadColor(platform, store, KeyForegroundColor, ColorWhite)
    {
      if KeyBackgroundColor in store {
        var hex := store[KeyBackgroundColor];
        bgColorSettings := platform.fromHex(hex);
      } else {
        bgColorSettings := ColorBlue;
      }
      if KeyForegroundColor in store {
        var hex := store[KeyForegroundColor];
        fgColorSettings := platform.fromHex(hex);
      } else {
        fgColorSettings := ColorWhite;
      }
    }

    /** The flag part of `window_load`: each flag from the store, or its default. */
    method LoadFlags()
      modifies this`batteryLine, this`staticLine, this`noLine, this`showDate, this`bluetoothVibes, this`randomColor
      ensures batteryLine == ReadFlag(store, KeyBatteryLine, true)
      ensures staticLine == ReadFlag(store, KeyStaticLine, false)
      ensures noLine == ReadFlag(store, KeyNoLine, false)
      ensures showDate == ReadFlag(store, KeyShowDate, true)
      ensures bluetoothVibes == ReadFlag(store, KeyBluetoothVibes, true)
      ensures randomColor == ReadFlag(store, KeyRandomColor, true)
    {
      batteryLine := ReadFlag(store, KeyBatteryLine, true);
      staticLine := ReadFlag(store, KeyStaticLine, false);
      noLine := ReadFlag(store, KeyNoLine, false);
      showDate := ReadFlag(store, KeyShowDate, true);
      bluetoothVibes := ReadFlag(store, KeyBluetoothVibes, true);
      randomColor := ReadFlag(store, KeyRandomColor, true);
    }

    /** `window_load`, up to the creation of the layers: every setting is read from
        the store or defaulted, then the colours are set. */
    method WindowLoad()
      modifies this
      ensures Valid()
      ensures Snapshot() == LoadSpec(platform, old(Snapshot()))
    {
      LoadColorSettings();
      LoadFlags();
      assert Snapshot() == old(Snapshot()).(settings := LoadSettings(platform, store));
      SetColors();
    }
  }
}

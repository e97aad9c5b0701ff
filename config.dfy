/** The user's settings, their message keys and how they are persisted.
    `KEY_*` at src/main.c:3-10; the settings fields at src/main.c:20-25. */
module Config {
  import opened Pebble

  /** A settings key: the `KEY_*` constants, 0 to 7. */
  type Key = k: int | 0 <= k < 8

  const KeyBackgroundColor: Key := 0
  const KeyForegroundColor: Key := 1
  const KeyBatteryLine: Key := 2
  const KeyStaticLine: Key := 3
  const KeyNoLine: Key := 4
  const KeyShowDate: Key := 5
  const KeyBluetoothVibes: Key := 6
  const KeyRandomColor: Key := 7

  /** The two keys whose values are colours; the other six are flags. */
  predicate IsColorKey(k: Key) {
    k == KeyBackgroundColor || k == KeyForegroundColor
  }

  /** The value of one setting. */
  datatype Setting = ColorSetting(color: Color) | FlagSetting(flag: bool)

  /** The eight settings held in memory
      (`bg_color_settings`, `fg_color_settings` and the six `*_bool` fields). */
  datatype Settings = Settings(
    bgColor: Color,
    fgColor: Color,
    batteryLine: bool,
    staticLine: bool,
    noLine: bool,
    showDate: bool,
    bluetoothVibes: bool,
    randomColor: bool)
  {
    /** The setting stored under key `k`. */
    function Get(k: Key): Setting {
      match k
      case 0 => ColorSetting(bgColor)
      case 1 => ColorSetting(fgColor)
      case 2 => FlagSetting(batteryLine)
      case 3 => FlagSetting(staticLine)
      case 4 => FlagSetting(noLine)
      case 5 => FlagSetting(showDate)
      case 6 => FlagSetting(bluetoothVibes)
      case 7 => FlagSetting(randomColor)
    }
  }

  /** Two settings records are equal when they agree under every key. */
  lemma SettingsExtensional(a: Settings, b: Settings)
    requires forall k: Key :: a.Get(k) == b.Get(k)
    ensures a == b
  {
    assert a.Get(0) == b.Get(0) && a.Get(1) == b.Get(1) && a.Get(2) == b.Get(2) && a.Get(3) == b.Get(3);
    assert a.Get(4) == b.Get(4) && a.Get(5) == b.Get(5) && a.Get(6) == b.Get(6) && a.Get(7) == b.Get(7);
  }

  /** The value `window_load` uses when nothing is stored under `k`. */
  function Default(k: Key): Setting {
    match k
    case 0 => ColorSetting(ColorBlue)
    case 1 => ColorSetting(ColorWhite)
    case 2 => FlagSetting(true)
    case 3 => FlagSetting(false)
    case 4 => FlagSetting(false)
    case 5 => FlagSetting(true)
    case 6 => FlagSetting(true)
    case 7 => FlagSetting(true)
  }

  /** `value->int8` of a tuple whose payload is `v`: its low-order byte read as signed. */
  function Int8Of(v: Int32): (b: int)
    ensures -0x80 <= b < 0x80
    ensures b == 0 <==> v % 0x100 == 0
  {
    var low := v % 0x100;
    if low < 0x80 then low else low - 0x100
  }

  /** A C `bool` passed to `persist_write_int`. */
  function BoolToInt(b: bool): Int32 {
    if b then 1 else 0
  }

  /** The setting the inbox handler keeps in memory for the inbound value `v` under `k`. */
  function Inbound(p: Platform, k: Key, v: Int32): Setting {
    if IsColorKey(k) then ColorSetting(p.fromHex(v)) else FlagSetting(Int8Of(v) != 0)
  }

  /** The value the inbox handler writes to persistent storage for the inbound value `v` under `k`. */
  function Persisted(k: Key, v: Int32): (w: Int32)
    ensures IsColorKey(k) ==> w == v
    ensures !IsColorKey(k) ==> w == 0 || w == 1
    ensures !IsColorKey(k) ==> (w == 1 <==> Int8Of(v) != 0)
  {
    if IsColorKey(k) then v else BoolToInt(Int8Of(v) != 0)
  }

  /** The setting `window_load` makes of the stored value `w` under `k`
      (`persist_read_int` then `GColorFromHEX` for colours, `persist_read_bool` for flags). */
  function Stored(p: Platform, k: Key, w: Int32): Setting {
    if IsColorKey(k) then ColorSetting(p.fromHex(w)) else FlagSetting(w != 0)
  }

  /** Reading back what the inbox handler persisted gives what it kept in memory. */
  lemma PersistedReadsBack(p: Platform, k: Key, v: Int32)
    ensures Stored(p, k, Persisted(k, v)) == Inbound(p, k, v)
  {
  }

  /** `persist_exists(k) ? GColorFromHEX(persist_read_int(k)) : default`. */
  function ReadColor(p: Platform, store: map<int, Int32>, k: Key, default: Color): Color {
    if k in store then p.fromHex(store[k]) else default
  }

  /** `persist_exists(k) ? persist_read_bool(k) : default`. */
  function ReadFlag(store: map<int, Int32>, k: Key, default: bool): bool {
    if k in store then store[k] != 0 else default
  }

  /** What `window_load` loads from the store: each field on its own, from its
      key when the key is present and from its default otherwise. */
  function LoadSettings(p: Platform, store: map<int, Int32>): Settings
  {
    Settings(
      bgColor := ReadColor(p, store, KeyBackgroundColor, ColorBlue),
      fgColor := ReadColor(p, store, KeyForegroundColor, ColorWhite),
      batteryLine := ReadFlag(store, KeyBatteryLine, true),
      staticLine := ReadFlag(store, KeyStaticLine, false),
      noLine := ReadFlag(store, KeyNoLine, false),
      showDate := ReadFlag(store, KeyShowDate, true),
      bluetoothVibes := ReadFlag(store, KeyBluetoothVibes, true),
      randomColor := ReadFlag(store, KeyRandomColor, true))
  }

  /** Each loaded setting comes from its own key when present and is its default otherwise. */
  lemma LoadField(p: Platform, store: map<int, Int32>, k: Key)
    ensures LoadSettings(p, store).Get(k) == if k in store then Stored(p, k, store[k]) else Default(k)
  {
  }

  /** With nothing stored the face starts blue on white, battery line on, static
      and no-line off, date shown, vibration on and random colours on. */
  lemma LoadEmptyStore(p: Platform)
    ensures LoadSettings(p, map[]) == Settings(ColorBlue, ColorWhite, true, false, false, true, true, true)
  {
  }

  /** Changing the stored entry under one key changes no other loaded setting. */
  lemma LoadIndependent(p: Platform, store: map<int, Int32>, j: Key, w: Int32, k: Key)
    requires k != j
    ensures LoadSettings(p, store[j := w]).Get(k) == LoadSettings(p, store).Get(k)
  {
    LoadField(p, store[j := w], k);
    LoadField(p, store, k);
  }
}

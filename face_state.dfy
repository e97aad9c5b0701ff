/** The watch face's whole state as a value, and what each event handler of
    src/main.c does to it. The class `Face.Face` is proved against these functions. */
module FaceState {
  import opened Pebble
  import opened Config
  import opened Colors
  import opened DateText

  /** The static globals of src/main.c:20-25, the random generator's state,
      the persistent store and the texts of the two date lines. */
  datatype State = State(
    settings: Settings,
    background: Color,
    foreground: Color,
    batteryLevel: Percent,
    rng: nat,
    store: map<int, Int32>,
    dateLineOne: string,
    dateLineTwo: string)

  /** The displayed colours agree with the settings: the chosen pair when random
      colours are off, otherwise a random opaque background with a legible foreground. */
  predicate ColorsConsistent(p: Platform, s: State) {
    if s.settings.randomColor then
      0xC0 <= s.background.argb <= 0xFE && s.foreground == p.legibleOver(s.background)
    else
      s.background == s.settings.bgColor && s.foreground == s.settings.fgColor
  }

  /** `set_colors`. Only the displayed colours and the generator change; the
      generator advances by exactly one draw when random colours are on. */
  function SetColorsSpec(p: Platform, s: State): (r: State)
    ensures ColorsConsistent(p, r)
    ensures r.settings == s.settings && r.batteryLevel == s.batteryLevel && r.store == s.store
    ensures r.dateLineOne == s.dateLineOne && r.dateLineTwo == s.dateLineTwo
    ensures !s.settings.randomColor ==> r.rng == s.rng
    ensures s.settings.randomColor ==> r.rng == p.next(s.rng) && r.background == RandomColor(p.rand(s.rng))
  {
    if s.settings.randomColor then
      var bg := RandomColor(p.rand(s.rng));
      s.(background := bg, foreground := p.legibleOver(bg), rng := p.next(s.rng))
    else
      s.(background := s.settings.bgColor, foreground := s.settings.fgColor)
  }

  /** `update_date`: both date lines are rewritten from the show-date flag and the
      time, and nothing else changes. */
  function UpdateDateSpec(p: Platform, s: State, t: Tm): (r: State)
    requires t.Valid()
    ensures (r.dateLineOne, r.dateLineTwo) == DateLines(p, s.settings.showDate, t)
    ensures !s.settings.showDate ==> r.dateLineOne == "" && r.dateLineTwo == ""
    ensures r.settings == s.settings && r.store == s.store && r.batteryLevel == s.batteryLevel
    ensures r.background == s.background && r.foreground == s.foreground && r.rng == s.rng
  {
    var lines := DateLines(p, s.settings.showDate, t);
    s.(dateLineOne := lines.0, dateLineTwo := lines.1)
  }

  /** Whether a ring redraw re-rolls the colours: random colours on, at the top of the hour. */
  predicate RerollDue(randomColor: bool, minute: int) {
    randomColor && minute == 0
  }

  /** The state change of `ring_update_proc`: a re-roll when one is due, nothing otherwise. */
  function RingRedrawSpec(p: Platform, s: State, t: Tm): (r: State)
    requires t.Valid()
    ensures !RerollDue(s.settings.randomColor, t.minute) ==> r == s
    ensures RerollDue(s.settings.randomColor, t.minute) ==>
      r.rng == p.next(s.rng) && r.background == RandomColor(p.rand(s.rng)) && ColorsConsistent(p, r)
    ensures r.settings == s.settings && r.store == s.store && r.batteryLevel == s.batteryLevel
    ensures r.dateLineOne == s.dateLineOne && r.dateLineTwo == s.dateLineTwo
    ensures ColorsConsistent(p, s) ==> ColorsConsistent(p, r)
  {
    if RerollDue(s.settings.randomColor, t.minute) then SetColorsSpec(p, s) else s
  }

  /** The background-colour block of `inbox_received_handler`: persist, adopt, `update_colors`. */
  function BackgroundBlock(p: Platform, s: State, hex: Int32): State {
    SetColorsSpec(p, s.(store := s.store[KeyBackgroundColor := hex], settings := s.settings.(bgColor := p.fromHex(hex))))
  }

  /** The foreground-colour block: persist, adopt, `update_colors`. */
  function ForegroundBlock(p: Platform, s: State, hex: Int32): State {
    SetColorsSpec(p, s.(store := s.store[KeyForegroundColor := hex], settings := s.settings.(fgColor := p.fromHex(hex))))
  }

  /** The battery-line block: adopt the flag and persist it. */
  function BatteryLineBlock(s: State, flag: bool): State {
    s.(settings := s.settings.(batteryLine := flag), store := s.store[KeyBatteryLine := BoolToInt(flag)])
  }

  /** The static-line block: adopt the flag and persist it. */
  function StaticLineBlock(s: State, flag: bool): State {
    s.(settings := s.settings.(staticLine := flag), store := s.store[KeyStaticLine := BoolToInt(flag)])
  }

  /** The no-line block: adopt the flag and persist it. */
  function NoLineBlock(s: State, flag: bool): State {
    s.(settings := s.settings.(noLine := flag), store := s.store[KeyNoLine := BoolToInt(flag)])
  }

  /** The show-date block: adopt the flag, persist it, `update_date`. */
  function ShowDateBlock(p: Platform, s: State, flag: bool, t: Tm): State
    requires t.Valid()
  {
    UpdateDateSpec(p, s.(settings := s.settings.(showDate := flag), store := s.store[KeyShowDate := BoolToInt(flag)]), t)
  }

  /** The vibration block: adopt the flag and persist it (the source writes the entry twice). */
  function BluetoothVibesBlock(s: State, flag: bool): State {
    var w := BoolToInt(flag);
    s.(settings := s.settings.(bluetoothVibes := flag), store := s.store[KeyBluetoothVibes := w][KeyBluetoothVibes := w])
  }

  /** The random-colour block: adopt the flag, persist it, `update_colors`. */
  function RandomColorBlock(p: Platform, s: State, flag: bool): State {
    SetColorsSpec(p, s.(settings := s.settings.(randomColor := flag), store := s.store[KeyRandomColor := BoolToInt(flag)]))
  }

  /** The block of `inbox_received_handler` for key `k` carrying `v`; flags are read
      through `value->int8`. */
  function ApplyKey(p: Platform, s: State, k: Key, v: Int32, t: Tm): State
    requires t.Valid()
  {
    var flag := Int8Of(v) != 0;
    match k
    case 0 => BackgroundBlock(p, s, v)
    case 1 => ForegroundBlock(p, s, v)
    case 2 => BatteryLineBlock(s, flag)
    case 3 => StaticLineBlock(s, flag)
    case 4 => NoLineBlock(s, flag)
    case 5 => ShowDateBlock(p, s, flag, t)
    case 6 => BluetoothVibesBlock(s, flag)
    case 7 => RandomColorBlock(p, s, flag)
  }

  /** One key of an inbound message: its block runs only when the key is present. */
  function Step(p: Platform, s: State, msg: map<int, Int32>, k: Key, t: Tm): State
    requires t.Valid()
  {
    if k in msg then ApplyKey(p, s, k, msg[k], t) else s
  }

  /** The keys `inbox_received_handler` looks up, in the order it handles them. */
  const InboxOrder: seq<Key> := [KeyBackgroundColor, KeyForegroundColor, KeyBatteryLine, KeyStaticLine,
                                 KeyNoLine, KeyShowDate, KeyBluetoothVibes, KeyRandomColor]

  /** Runs the blocks of the keys `ks`, first to last. */
  function Process(p: Platform, s: State, msg: map<int, Int32>, ks: seq<Key>, t: Tm): State
    requires t.Valid()
    decreases |ks|
  {
    if ks == [] then s else Process(p, Step(p, s, msg, ks[0], t), msg, ks[1..], t)
  }

  /** `inbox_received_handler`: the eight key blocks in the order of the source. */
  function InboxSpec(p: Platform, s: State, msg: map<int, Int32>, t: Tm): State
    requires t.Valid()
  {
    Process(p, s, msg, InboxOrder, t)
  }

  /** `InboxSpec` is the eight blocks one after the other. */
  lemma InboxSteps(p: Platform, s: State, msg: map<int, Int32>, t: Tm)
    requires t.Valid()
    ensures InboxSpec(p, s, msg, t)
            == Step(p, Step(p, Step(p, Step(p, Step(p, Step(p, Step(p, Step(p, s,
                 msg, KeyBackgroundColor, t), msg, KeyForegroundColor, t), msg, KeyBatteryLine, t),
                 msg, KeyStaticLine, t), msg, KeyNoLine, t), msg, KeyShowDate, t),
                 msg, KeyBluetoothVibes, t), msg, KeyRandomColor, t)
  {
    var s0 := s;
    var s1 := Step(p, s0, msg, KeyBackgroundColor, t);
    assert Process(p, s0, msg, [KeyBackgroundColor, KeyForegroundColor, KeyBatteryLine, KeyStaticLine, KeyNoLine, KeyShowDate, KeyBluetoothVibes, KeyRandomColor], t) == Process(p, s1, msg, [KeyForegroundColor, KeyBatteryLine, KeyStaticLine, KeyNoLine, KeyShowDate, KeyBluetoothVibes, KeyRandomColor], t);
    var s2 := Step(p, s1, msg, KeyForegroundColor, t);
    assert Process(p, s1, msg, [KeyForegroundColor, KeyBatteryLine, KeyStaticLine, KeyNoLine, KeyShowDate, KeyBluetoothVibes, KeyRandomColor], t) == Process(p, s2, msg, [KeyBatteryLine, KeyStaticLine, KeyNoLine, KeyShowDate, KeyBluetoothVibes, KeyRandomColor], t);
    var s3 := Step(p, s2, msg, KeyBatteryLine, t);
    assert Process(p, s2, msg, [KeyBatteryLine, KeyStaticLine, KeyNoLine, KeyShowDate, KeyBluetoothVibes, KeyRandomColor], t) == Process(p, s3, msg, [KeyStaticLine, KeyNoLine, KeyShowDate, KeyBluetoothVibes, KeyRandomColor], t);
    var s4 := Step(p, s3, msg, KeyStaticLine, t);
    assert Process(p, s3, msg, [KeyStaticLine, KeyNoLine, KeyShowDate, KeyBluetoothVibes, KeyRandomColor], t) == Process(p, s4, msg, [KeyNoLine, KeyShowDate, KeyBluetoothVibes, KeyRandomColor], t);
    var s5 := Step(p, s4, msg, KeyNoLine, t);
    assert Process(p, s4, msg, [KeyNoLine, KeyShowDate, KeyBluetoothVibes, KeyRandomColor], t) == Process(p, s5, msg, [KeyShowDate, KeyBluetoothVibes, KeyRandomColor], t);
    var s6 := Step(p, s5, msg, KeyShowDate, t);
    assert Process(p, s5, msg, [KeyShowDate, KeyBluetoothVibes, KeyRandomColor], t) == Process(p, s6, msg, [KeyBluetoothVibes, KeyRandomColor], t);
    var s7 := Step(p, s6, msg, KeyBluetoothVibes, t);
    assert Process(p, s6, msg, [KeyBluetoothVibes, KeyRandomColor], t) == Process(p, s7, msg, [KeyRandomColor], t);
    var s8 := Step(p, s7, msg, KeyRandomColor, t);
    assert Process(p, s7, msg, [KeyRandomColor], t) == Process(p, s8, msg, [], t);
  }

  /** `window_load` up to the creation of the layers: load every setting, then `set_colors`. */
  function LoadSpec(p: Platform, s: State): (r: State)
    ensures r.settings == LoadSettings(p, s.store)
    ensures ColorsConsistent(p, r)
    ensures r.store == s.store && r.batteryLevel == s.batteryLevel
    ensures r.dateLineOne == s.dateLineOne && r.dateLineTwo == s.dateLineTwo
    ensures r.settings.randomColor ==> r.rng == p.next(s.rng) && r.background == RandomColor(p.rand(s.rng))
    ensures !r.settings.randomColor ==> r.rng == s.rng
  {
    SetColorsSpec(p, s.(settings := LoadSettings(p, s.store)))
  }

  /** The entries the blocks of the keys `ks` make in the store for a message. */
  function Written(msg: map<int, Int32>, ks: seq<Key>): map<int, Int32>
  {
    map k: Key | k in msg && k in ks :: Persisted(k, msg[k])
  }

  /** One key block sets its own setting and store entry and nothing else of either. */
  lemma ApplyKeyEffect(p: Platform, s: State, k: Key, v: Int32, t: Tm)
    requires t.Valid()
    ensures ApplyKey(p, s, k, v, t).store == s.store[k := Persisted(k, v)]
    ensures forall j: Key :: ApplyKey(p, s, k, v, t).settings.Get(j) == if j == k then Inbound(p, k, v) else s.settings.Get(j)
    ensures ApplyKey(p, s, k, v, t).batteryLevel == s.batteryLevel
  {
    var r := ApplyKey(p, s, k, v, t);
    forall j: Key ensures r.settings.Get(j) == if j == k then Inbound(p, k, v) else s.settings.Get(j) {
      match k
      case 0 =>
      case 1 =>
      case 2 =>
      case 3 =>
      case 4 =>
      case 5 =>
      case 6 =>
      case 7 =>
    }
  }

  /** The keys whose block calls `update_colors`. */
  predicate Recolors(k: Key) {
    k == KeyBackgroundColor || k == KeyForegroundColor || k == KeyRandomColor
  }

  /** The generator state after `n` calls of `rand` starting from state `g`. */
  function Iter(p: Platform, n: nat, g: nat): nat
    decreases n
  {
    if n == 0 then g else Iter(p, n - 1, p.next(g))
  }

  /** The generator of `s` is some number of draws past `g0`, and the background is
      the `random_color` of the last of those draws: `set_colors` ran its random
      branch on a generator state reached from `g0`. */
  ghost predicate DrawnFrom(p: Platform, g0: nat, s: State) {
    exists n: nat :: s.rng == p.next(Iter(p, n, g0)) && s.background == RandomColor(p.rand(Iter(p, n, g0)))
  }

  /** `m` draws after `d` draws from `g` are `m + d` draws from `g`. */
  lemma {:induction false} IterAdd(p: Platform, m: nat, d: nat, g: nat)
    ensures Iter(p, m, Iter(p, d, g)) == Iter(p, m + d, g)
    decreases d
  {
    if d > 0 {
      IterAdd(p, m, d - 1, p.next(g));
    }
  }

  /** What one key block does to the derived state: the three colour keys re-run
      `set_colors`, the show-date key re-runs `update_date`, and every other block
      leaves the displayed colours, the generator and the date lines alone. */
  lemma ApplyKeyDerived(p: Platform, s: State, k: Key, v: Int32, t: Tm)
    requires t.Valid()
    ensures Recolors(k) ==> ColorsConsistent(p, ApplyKey(p, s, k, v, t))
    ensures Recolors(k) && ApplyKey(p, s, k, v, t).settings.randomColor ==>
      var r := ApplyKey(p, s, k, v, t);
      r.rng == p.next(s.rng) && r.background == RandomColor(p.rand(s.rng))
    ensures Recolors(k) && !ApplyKey(p, s, k, v, t).settings.randomColor ==> ApplyKey(p, s, k, v, t).rng == s.rng
    ensures !Recolors(k) ==> ColorsConsistent(p, s) ==> ColorsConsistent(p, ApplyKey(p, s, k, v, t))
    ensures !Recolors(k) ==>
      var r := ApplyKey(p, s, k, v, t);
      r.background == s.background && r.foreground == s.foreground && r.rng == s.rng
    ensures k == KeyShowDate ==>
      var r := ApplyKey(p, s, k, v, t);
      (r.dateLineOne, r.dateLineTwo) == DateLines(p, Int8Of(v) != 0, t)
    ensures k != KeyShowDate ==>
      var r := ApplyKey(p, s, k, v, t);
      r.dateLineOne == s.dateLineOne && r.dateLineTwo == s.dateLineTwo
  {
  }

  /** One step of the handler sets the setting and store entry of its key when the key is present. */
  lemma StepEffect(p: Platform, s: State, msg: map<int, Int32>, k: Key, t: Tm)
    requires t.Valid()
    ensures Step(p, s, msg, k, t).store == if k in msg then s.store[k := Persisted(k, msg[k])] else s.store
    ensures forall j: Key ::
      Step(p, s, msg, k, t).settings.Get(j) == if j == k && k in msg then Inbound(p, k, msg[k]) else s.settings.Get(j)
    ensures Step(p, s, msg, k, t).batteryLevel == s.batteryLevel
  {
    if k in msg {
      ApplyKeyEffect(p, s, k, msg[k], t);
    }
  }

  /** Running the blocks of `ks` sets, for each key of `ks` present in the
      message, the in-memory setting to the inbound value; every other setting
      and the battery level stay as they were. */
  lemma {:induction false} ProcessSettings(p: Platform, s: State, msg: map<int, Int32>, ks: seq<Key>, t: Tm)
    requires t.Valid()
    ensures forall k: Key ::
      Process(p, s, msg, ks, t).settings.Get(k) == if k in msg && k in ks then Inbound(p, k, msg[k]) else s.settings.Get(k)
    ensures Process(p, s, msg, ks, t).batteryLevel == s.batteryLevel
    decreases |ks|
  {
    if ks != [] {
      var s1 := Step(p, s, msg, ks[0], t);
      StepEffect(p, s, msg, ks[0], t);
      ProcessSettings(p, s1, msg, ks[1..], t);
      forall k: Key ensures k in ks <==> k == ks[0] || k in ks[1..] {
        assert ks == [ks[0]] + ks[1..];
      }
    }
  }

  /** The store after the blocks of `ks` have persisted their keys one by one. */
  function StoreAfter(store: map<int, Int32>, msg: map<int, Int32>, ks: seq<Key>): map<int, Int32>
    decreases |ks|
  {
    if ks == [] then store
    else StoreAfter(if ks[0] in msg then store[ks[0] := Persisted(ks[0], msg[ks[0]])] else store, msg, ks[1..])
  }

  /** Persisting the keys one by one adds exactly the entries `Written(msg, ks)`. */
  lemma {:induction false} StoreAfterWritten(store: map<int, Int32>, msg: map<int, Int32>, ks: seq<Key>)
    ensures StoreAfter(store, msg, ks) == store + Written(msg, ks)
    decreases |ks|
  {
    if ks == [] {
      assert Written(msg, ks) == map[];
    } else {
      var k0 := ks[0];
      var store1 := if k0 in msg then store[k0 := Persisted(k0, msg[k0])] else store;
      StoreAfterWritten(store1, msg, ks[1..]);
      var r := store1 + Written(msg, ks[1..]);
      var w := store + Written(msg, ks);
      assert ks == [k0] + ks[1..];
      forall j | true
        ensures (j in r <==> j in w) && (j in r ==> r[j] == w[j])
      {
        if j in Written(msg, ks[1..]) {
          assert j in Written(msg, ks);
        } else if j == k0 && k0 in msg {
          assert j in Written(msg, ks);
        } else {
          assert j !in Written(msg, ks);
        }
      }
      assert r == w;
    }
  }

  /** Running the blocks of `ks` persists the keys one by one. */
  lemma {:induction false} ProcessStore(p: Platform, s: State, msg: map<int, Int32>, ks: seq<Key>, t: Tm)
    requires t.Valid()
    ensures Process(p, s, msg, ks, t).store == StoreAfter(s.store, msg, ks)
    decreases |ks|
  {
    if ks != [] {
      StepEffect(p, s, msg, ks[0], t);
      ProcessStore(p, Step(p, s, msg, ks[0], t), msg, ks[1..], t);
    }
  }

  /** `inbox_received_handler` writes each present key to memory and to the store
      under the same key, and leaves the setting and the store entry of every absent
      key (and every entry that is not a settings key) as they were. */
  lemma InboxWrites(p: Platform, s: State, msg: map<int, Int32>, t: Tm)
    requires t.Valid()
    ensures InboxSpec(p, s, msg, t).store == s.store + Written(msg, InboxOrder)
    ensures forall k: Key ::
      InboxSpec(p, s, msg, t).settings.Get(k) == if k in msg then Inbound(p, k, msg[k]) else s.settings.Get(k)
    ensures InboxSpec(p, s, msg, t).batteryLevel == s.batteryLevel
  {
    ProcessSettings(p, s, msg, InboxOrder, t);
    ProcessStore(p, s, msg, InboxOrder, t);
    StoreAfterWritten(s.store, msg, InboxOrder);
    forall k: Key ensures k in InboxOrder {
      assert InboxOrder[k] == k;
    }
  }

  /** Running the blocks of `ks` keeps the colours consistent with the settings,
      makes them consistent whenever a colour key is among them, and touches
      neither the colours nor the generator when none is. The generator only moves
      forward from its state before the blocks, and in random mode after a colour
      key the background is the draw of the last `set_colors` made on that way. */
  lemma {:induction false} ProcessColors(p: Platform, s: State, msg: map<int, Int32>, ks: seq<Key>, t: Tm)
    requires t.Valid()
    ensures ColorsConsistent(p, s) ==> ColorsConsistent(p, Process(p, s, msg, ks, t))
    ensures (exists k: Key :: k in ks && k in msg && Recolors(k)) ==> ColorsConsistent(p, Process(p, s, msg, ks, t))
    ensures (exists k: Key :: k in ks && k in msg && Recolors(k)) && Process(p, s, msg, ks, t).settings.randomColor ==>
      DrawnFrom(p, s.rng, Process(p, s, msg, ks, t))
    ensures exists m: nat :: Process(p, s, msg, ks, t).rng == Iter(p, m, s.rng)
    ensures (forall k: Key :: k in ks && k in msg ==> !Recolors(k)) ==>
      var r := Process(p, s, msg, ks, t);
      r.background == s.background && r.foreground == s.foreground && r.rng == s.rng
    decreases |ks|
  {
    if ks == [] {
      assert Process(p, s, msg, ks, t).rng == Iter(p, 0, s.rng);
    } else {
      var k0 := ks[0];
      var s1 := Step(p, s, msg, k0, t);
      var r := Process(p, s1, msg, ks[1..], t);
      if k0 in msg {
        ApplyKeyDerived(p, s, k0, msg[k0], t);
      }
      ProcessColors(p, s1, msg, ks[1..], t);
      assert ks == [k0] + ks[1..];
      assert r == Process(p, s, msg, ks, t);
      // the first block either leaves the generator or advances it by one draw
      var d: nat := if s1.rng == s.rng then 0 else 1;
      assert s1.rng == Iter(p, d, s.rng);
      var m1: nat :| r.rng == Iter(p, m1, s1.rng);
      IterAdd(p, m1, d, s.rng);
      assert r.rng == Iter(p, m1 + d, s.rng);
      if (exists k: Key :: k in ks && k in msg && Recolors(k)) && r.settings.randomColor {
        if exists k: Key :: k in ks[1..] && k in msg && Recolors(k) {
          var n1: nat :| r.rng == p.next(Iter(p, n1, s1.rng)) && r.background == RandomColor(p.rand(Iter(p, n1, s1.rng)));
          IterAdd(p, n1, d, s.rng);
          assert r.rng == p.next(Iter(p, n1 + d, s.rng));
        } else {
          // the last draw is this block's: the rest keeps the colours, the generator and the flag
          var k: Key :| k in ks && k in msg && Recolors(k);
          assert k == k0;
          ProcessSettings(p, s1, msg, ks[1..], t);
          assert r.settings.Get(KeyRandomColor) == s1.settings.Get(KeyRandomColor);
          assert r.rng == p.next(Iter(p, 0, s.rng)) && r.background == RandomColor(p.rand(Iter(p, 0, s.rng)));
        }
      }
    }
  }

  /** Running the blocks of `ks` sets the date lines from the inbound show-date
      flag when that key is among them, and leaves them alone otherwise. */
  lemma {:induction false} ProcessDateLines(p: Platform, s: State, msg: map<int, Int32>, ks: seq<Key>, t: Tm)
    requires t.Valid()
    ensures KeyShowDate in msg && KeyShowDate in ks ==>
      var r := Process(p, s, msg, ks, t);
      (r.dateLineOne, r.dateLineTwo) == DateLines(p, Int8Of(msg[KeyShowDate]) != 0, t)
    ensures !(KeyShowDate in msg && KeyShowDate in ks) ==>
      var r := Process(p, s, msg, ks, t);
      r.dateLineOne == s.dateLineOne && r.dateLineTwo == s.dateLineTwo
    decreases |ks|
  {
    if ks != [] {
      var k0 := ks[0];
      if k0 in msg {
        ApplyKeyDerived(p, s, k0, msg[k0], t);
      }
      ProcessDateLines(p, Step(p, s, msg, k0, t), msg, ks[1..], t);
      assert ks == [k0] + ks[1..];
    }
  }

  /** A colour key in the message makes `inbox_received_handler` re-run `set_colors`:
      the colours then match the settings and, in random mode, the background is
      `random_color` of a draw made from a generator state reached from the one before
      the message. The generator only moves forward. Without one the displayed colours and the generator are untouched.
      Either way colours that matched the settings still do. */
  lemma InboxColors(p: Platform, s: State, msg: map<int, Int32>, t: Tm)
    requires t.Valid()
    ensures ColorsConsistent(p, s) ==> ColorsConsistent(p, InboxSpec(p, s, msg, t))
    ensures KeyBackgroundColor in msg || KeyForegroundColor in msg || KeyRandomColor in msg ==>
      ColorsConsistent(p, InboxSpec(p, s, msg, t))
    ensures ((KeyBackgroundColor in msg || KeyForegroundColor in msg || KeyRandomColor in msg) &&
             InboxSpec(p, s, msg, t).settings.randomColor) ==>
      DrawnFrom(p, s.rng, InboxSpec(p, s, msg, t))
    ensures exists m: nat :: InboxSpec(p, s, msg, t).rng == Iter(p, m, s.rng)
    ensures !(KeyBackgroundColor in msg || KeyForegroundColor in msg || KeyRandomColor in msg) ==>
      var r := InboxSpec(p, s, msg, t);
      r.background == s.background && r.foreground == s.foreground && r.rng == s.rng
  {
    ProcessColors(p, s, msg, InboxOrder, t);
    assert InboxOrder[0] == KeyBackgroundColor && InboxOrder[1] == KeyForegroundColor && InboxOrder[7] == KeyRandomColor;
  }

  /** The show-date key makes `inbox_received_handler` rewrite both date lines
      from the new flag (both empty when it is off); without it they are untouched. */
  lemma InboxDateLines(p: Platform, s: State, msg: map<int, Int32>, t: Tm)
    requires t.Valid()
    ensures KeyShowDate in msg ==>
      var r := InboxSpec(p, s, msg, t);
      (r.dateLineOne, r.dateLineTwo) == DateLines(p, r.settings.showDate, t)
    ensures KeyShowDate !in msg ==>
      var r := InboxSpec(p, s, msg, t);
      r.dateLineOne == s.dateLineOne && r.dateLineTwo == s.dateLineTwo
  {
    ProcessDateLines(p, s, msg, InboxOrder, t);
    InboxWrites(p, s, msg, t);
    assert InboxOrder[5] == KeyShowDate;
    assert InboxSpec(p, s, msg, t).settings.Get(KeyShowDate) == FlagSetting(InboxSpec(p, s, msg, t).settings.showDate);
  }

  /** For every key present in an inbound message, loading the store afterwards
      gives the value the handler keeps in memory, which is the inbound value. */
  lemma PersistThenLoad(p: Platform, s: State, msg: map<int, Int32>, t: Tm, k: Key)
    requires t.Valid()
    requires k in msg
    ensures LoadSettings(p, InboxSpec(p, s, msg, t).store).Get(k) == Inbound(p, k, msg[k])
    ensures InboxSpec(p, s, msg, t).settings.Get(k) == Inbound(p, k, msg[k])
  {
    InboxWrites(p, s, msg, t);
    var r := InboxSpec(p, s, msg, t);
    assert k in InboxOrder by { assert InboxOrder[k] == k; }
    assert k in Written(msg, InboxOrder);
    assert r.store[k] == Persisted(k, msg[k]);
    LoadField(p, r.store, k);
    PersistedReadsBack(p, k, msg[k]);
  }

  /** If the settings in memory are what a load of the store would give, they still
      are after `inbox_received_handler`: a restart of the face reloads exactly the
      settings it was showing. */
  lemma InboxKeepsStoreInSync(p: Platform, s: State, msg: map<int, Int32>, t: Tm)
    requires t.Valid()
    requires s.settings == LoadSettings(p, s.store)
    ensures InboxSpec(p, s, msg, t).settings == LoadSettings(p, InboxSpec(p, s, msg, t).store)
  {
    InboxWrites(p, s, msg, t);
    var r := InboxSpec(p, s, msg, t);
    forall k: Key ensures r.settings.Get(k) == LoadSettings(p, r.store).Get(k) {
      LoadField(p, r.store, k);
      if k in msg {
        PersistThenLoad(p, s, msg, t, k);
      } else {
        assert k !in Written(msg, InboxOrder);
        LoadField(p, s.store, k);
      }
    }
    SettingsExtensional(r.settings, LoadSettings(p, r.store));
  }

  /** Loading, receiving any sequence of settings messages, then loading again
      leaves the settings as they were before the second load. */
  lemma ReloadRestoresSettings(p: Platform, s: State, msgs: seq<map<int, Int32>>, t: Tm)
    requires t.Valid()
    ensures LoadSpec(p, InboxAll(p, LoadSpec(p, s), msgs, t)).settings == InboxAll(p, LoadSpec(p, s), msgs, t).settings
  {
    InboxAllKeepsStoreInSync(p, LoadSpec(p, s), msgs, t);
  }

  /** The state after `inbox_received_handler` has handled each message of `msgs` in turn. */
  function InboxAll(p: Platform, s: State, msgs: seq<map<int, Int32>>, t: Tm): State
    requires t.Valid()
    decreases |msgs|
  {
    if msgs == [] then s else InboxAll(p, InboxSpec(p, s, msgs[0], t), msgs[1..], t)
  }

  /** Settings that match the store still match it after any sequence of messages. */
  lemma {:induction false} InboxAllKeepsStoreInSync(p: Platform, s: State, msgs: seq<map<int, Int32>>, t: Tm)
    requires t.Valid()
    requires s.settings == LoadSettings(p, s.store)
    ensures InboxAll(p, s, msgs, t).settings == LoadSettings(p, InboxAll(p, s, msgs, t).store)
    decreases |msgs|
  {
    if msgs != [] {
      InboxKeepsStoreInSync(p, s, msgs[0], t);
      InboxAllKeepsStoreInSync(p, InboxSpec(p, s, msgs[0], t), msgs[1..], t);
    }
  }
}

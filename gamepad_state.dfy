// Input state changes of the DirectInput gamepad backend: the POV angle to
// 8-way hat conversion, and the edge-triggered button and hat updates with
// the callbacks they fire, recorded as events.

module GamepadState {
  import opened Wrappers
  import opened GamepadGuid

  /** Hat direction bits (`GAMEPAD_HAT_UP`, `_RIGHT`, `_DOWN`, `_LEFT`). */
  const HatUp: bv8 := 1
  const HatRight: bv8 := 2
  const HatDown: bv8 := 4
  const HatLeft: bv8 := 8
  const HatCentered: bv8 := 0

  /** The `states` table of `updateHatValue`: the eight compass points clockwise from up. */
  const HatStates: seq<bv8> :=
    [HatUp, HatUp | HatRight, HatRight, HatRight | HatDown,
     HatDown, HatDown | HatLeft, HatLeft, HatLeft | HatUp]

  /** The four directions in the order `updateHatValue` visits them. */
  const Directions: seq<bv8> := [HatUp, HatRight, HatDown, HatLeft]

  /** `LOWORD` of a DWORD. */
  function LoWord(v: Dword): int
  {
    v % 0x10000
  }

  /**
   * The table index computed from a POV reading: add half a sector in 32-bit
   * arithmetic (which wraps), reduce modulo 36000, divide by 4500. The index
   * is always below 8, so the source's fallback for an index of 8 or more
   * never fires.
   */
  function PovSector(v: Dword): (k: nat)
    ensures k < 8
  {
    ((v + 2250) % 0x1_0000_0000 % 36000) / 4500
  }

  /** The hat state stored for a POV reading; a low word of 0xFFFF means centred. */
  function PovToHat(v: Dword): (h: bv8)
    ensures h == HatCentered <==> LoWord(v) == 0xFFFF
  {
    if LoWord(v) == 0xFFFF then HatCentered else HatStates[PovSector(v)]
  }

  /** Distance between two angles in hundredths of a degree, around the circle. */
  function AngleDistance(a: int, b: int): (d: int)
    requires 0 <= a < 36000 && 0 <= b < 36000
    ensures 0 <= d <= 18000
  {
    var diff := if a >= b then a - b else b - a;
    if diff <= 18000 then diff else 36000 - diff
  }

  /** A valid POV angle lands in the sector whose centre is nearest to it. */
  lemma PovNearestSector(v: Dword)
    requires v < 36000
    ensures AngleDistance(v, PovSector(v) * 4500) <= 2250
    ensures forall k :: 0 <= k < 8 ==> AngleDistance(v, PovSector(v) * 4500) <= AngleDistance(v, k * 4500)
  {
    var s := PovSector(v);
    if v < 33750 {
      assert s == (v + 2250) / 4500;
      assert s * 4500 <= v + 2250 < s * 4500 + 4500;
    } else {
      assert s == 0;
    }
  }

  /** The cardinal angles map to single directions, 45 degrees to a diagonal. */
  lemma PovCompass()
    ensures PovToHat(0) == HatUp && PovToHat(9000) == HatRight
    ensures PovToHat(18000) == HatDown && PovToHat(27000) == HatLeft
    ensures PovToHat(4500) == HatUp | HatRight && PovToHat(35999) == HatUp
    ensures PovToHat(0xFFFF) == HatCentered && PovToHat(0xFFFF_FFFF) == HatCentered
  {
  }

  /**
   * The half-sector addition wraps at 2^32: a reading just below 2^32 whose
   * low word is not 0xFFFF lands on sector 0 (without the wrap it would be
   * sector 5).
   */
  lemma PovWraps()
    ensures LoWord(0xFFFF_F736) != 0xFFFF && PovSector(0xFFFF_F736) == 0
    ensures ((0xFFFF_F736 + 2250) % 36000) / 4500 == 5
  {
  }

  /** A hat state: at most one of up/down and at most one of left/right, no other bits. */
  predicate ValidHat(h: bv8)
  {
    h & 0xF0 == 0 && (h & HatUp == 0 || h & HatDown == 0) && (h & HatLeft == 0 || h & HatRight == 0)
  }

  /**
   * Every converted reading is a valid hat state, non-negative as a signed
   * char; neighbouring table entries share a direction.
   */
  lemma PovToHatValid(v: Dword)
    ensures ValidHat(PovToHat(v)) && PovToHat(v) < 0x80
    ensures forall k :: 0 <= k < 8 ==> HatStates[k] != 0 && HatStates[k] & HatStates[(k + 1) % 8] != 0
  {
    var k := PovSector(v);
    assert forall j :: 0 <= j < 8 ==> ValidHat(HatStates[j]) && HatStates[j] < 0x80;
  }

  /** What a binding maps a device input to. */
  datatype Binding = ToAxis(axis: nat) | ToButton(button: nat) | ToOther

  /** Which of the application's callbacks are registered (non-null). */
  datatype Callbacks = Callbacks(buttonDown: bool, buttonUp: bool, axisMove: bool, attach: bool, remove: bool)

  /** One callback invocation; axis values are the floats 1.0 and -1.0 as integers. */
  datatype Event =
    | ButtonDown(device: nat, button: nat)
    | ButtonUp(device: nat, button: nat)
    | AxisMove(device: nat, axis: nat, value: int, lastValue: int)
    | Attached(device: nat)
    | Removed(device: nat)

  /** Whether an event reports an input going down (a press or an axis to +1). */
  predicate Pressing(e: Event)
  {
    e.ButtonDown? || (e.AxisMove? && e.value > 0)
  }

  /** The callbacks `updateButtonValue` fires once the stored state has flipped to `down`. */
  function ButtonEvents(id: nat, bind: Option<Binding>, down: bool, cb: Callbacks): (r: seq<Event>)
    ensures |r| <= 1
    ensures forall e :: e in r ==> Pressing(e) == down
  {
    match bind
    case None => []
    case Some(ToAxis(a)) =>
      if cb.axisMove then [if down then AxisMove(id, a, 1, -1) else AxisMove(id, a, -1, 1)] else []
    case Some(ToButton(b)) =>
      if down then (if cb.buttonDown then [ButtonDown(id, b)] else [])
      else (if cb.buttonUp then [ButtonUp(id, b)] else [])
    case Some(ToOther) => []
  }

  /** `updateButtonValue`: new button states and fired events. */
  function ButtonUpdate(states: seq<bool>, i: nat, down: bool, bind: Option<Binding>, id: nat, cb: Callbacks): (r: (seq<bool>, seq<Event>))
    requires i < |states|
    ensures r.0 == states[i := down]
    ensures states[i] == down ==> r.1 == []
    ensures |r.1| <= 1 && forall e :: e in r.1 ==> Pressing(e) == down
  {
    if down != states[i] then (states[i := down], ButtonEvents(id, bind, down, cb)) else (states, [])
  }

  /** Repeating an update changes nothing and fires nothing. */
  lemma ButtonUpdateIdempotent(states: seq<bool>, i: nat, down: bool, bind: Option<Binding>, id: nat, cb: Callbacks)
    requires i < |states|
    ensures ButtonUpdate(ButtonUpdate(states, i, down, bind, id, cb).0, i, down, bind, id, cb)
            == (ButtonUpdate(states, i, down, bind, id, cb).0, [])
  {
  }

  /** A change of a button bound to a button fires its callback when one is registered. */
  lemma ButtonChangeReported(states: seq<bool>, i: nat, down: bool, b: nat, id: nat, cb: Callbacks)
    requires i < |states| && states[i] != down
    requires if down then cb.buttonDown else cb.buttonUp
    ensures ButtonUpdate(states, i, down, Some(ToButton(b)), id, cb).1
            == [if down then ButtonDown(id, b) else ButtonUp(id, b)]
  {
  }

  /** The signed `char` value of a stored hat state. */
  function SignedChar(x: bv8): int
  {
    if x < 0x80 then x as int else x as int - 0x100
  }

  /** Whether direction `k`'s bit differs between the old and new hat state. */
  predicate Changed(last: bv8, value: bv8, k: nat)
    requires k < 4
  {
    (last ^ value) & Directions[k] != 0
  }

  /** The bindings a hat update reads exist: one per changed direction. */
  predicate BindingsReadable(last: bv8, value: bv8, bindings: seq<Option<Binding>>, base: nat)
  {
    forall k :: 0 <= k < 4 && Changed(last, value, k) ==> base + k < |bindings|
  }

  /**
   * The block of `updateHatValue` for direction `k`: its binding, at
   * `base + k`, is looked up only when the direction's bit changed.
   */
  function DirectionEvents(id: nat, k: nat, last: bv8, value: bv8, bindings: seq<Option<Binding>>, base: nat, cb: Callbacks): (r: seq<Event>)
    requires k < 4 && BindingsReadable(last, value, bindings, base)
    ensures |r| <= 1
    ensures !Changed(last, value, k) ==> r == []
  {
    if !Changed(last, value, k) then []
    else
      var bit := Directions[k];
      match bindings[base + k]
      case None => []
      case Some(ToAxis(a)) =>
        if !cb.axisMove then []
        else if SignedChar(last) < 0 then [AxisMove(id, a, 1, -1)]
        else [AxisMove(id, a, -1, 1)]
      case Some(ToButton(b)) =>
        if cb.buttonUp && last & bit != 0 then [ButtonUp(id, b)]
        else if cb.buttonDown && value & bit != 0 then [ButtonDown(id, b)]
        else []
      case Some(ToOther) => []
  }

  /** The number of directions whose bit changed. */
  function ChangedCount(last: bv8, value: bv8): nat
  {
    (if Changed(last, value, 0) then 1 else 0) + (if Changed(last, value, 1) then 1 else 0)
    + (if Changed(last, value, 2) then 1 else 0) + (if Changed(last, value, 3) then 1 else 0)
  }

  /** All events of one hat update, up, right, down, left in turn; at most one per changed direction. */
  function HatEvents(id: nat, last: bv8, value: bv8, bindings: seq<Option<Binding>>, base: nat, cb: Callbacks): (r: seq<Event>)
    requires BindingsReadable(last, value, bindings, base)
    ensures |r| <= ChangedCount(last, value)
    ensures last == value ==> r == []
  {
    DirectionEvents(id, 0, last, value, bindings, base, cb) + DirectionEvents(id, 1, last, value, bindings, base, cb)
    + DirectionEvents(id, 2, last, value, bindings, base, cb) + DirectionEvents(id, 3, last, value, bindings, base, cb)
  }

  /** The binding of a direction whose bit did not change is never consulted. */
  lemma HatIgnoresUnchangedBindings(id: nat, last: bv8, value: bv8, b1: seq<Option<Binding>>, b2: seq<Option<Binding>>, base: nat, cb: Callbacks)
    requires BindingsReadable(last, value, b1, base) && BindingsReadable(last, value, b2, base)
    requires forall k :: 0 <= k < 4 && Changed(last, value, k) ==> b1[base + k] == b2[base + k]
    ensures HatEvents(id, last, value, b1, base, cb) == HatEvents(id, last, value, b2, base, cb)
  {
    DirectionIgnoresUnchanged(id, 0, last, value, b1, b2, base, cb);
    DirectionIgnoresUnchanged(id, 1, last, value, b1, b2, base, cb);
    DirectionIgnoresUnchanged(id, 2, last, value, b1, b2, base, cb);
    DirectionIgnoresUnchanged(id, 3, last, value, b1, b2, base, cb);
  }

  lemma DirectionIgnoresUnchanged(id: nat, k: nat, last: bv8, value: bv8, b1: seq<Option<Binding>>, b2: seq<Option<Binding>>, base: nat, cb: Callbacks)
    requires k < 4 && BindingsReadable(last, value, b1, base) && BindingsReadable(last, value, b2, base)
    requires Changed(last, value, k) ==> b1[base + k] == b2[base + k]
    ensures DirectionEvents(id, k, last, value, b1, base, cb) == DirectionEvents(id, k, last, value, b2, base, cb)
  {
  }

  /**
   * A direction bound to a button, with both callbacks registered, reports a
   * press exactly when its bit turns on and a release exactly when it turns off.
   */
  lemma DirectionButtonEdges(id: nat, k: nat, last: bv8, value: bv8, bindings: seq<Option<Binding>>, base: nat, cb: Callbacks, b: nat)
    requires k < 4 && BindingsReadable(last, value, bindings, base)
    requires base + k < |bindings| && bindings[base + k] == Some(ToButton(b)) && cb.buttonUp && cb.buttonDown
    ensures DirectionEvents(id, k, last, value, bindings, base, cb) == [ButtonDown(id, b)]
            <==> value & Directions[k] != 0 && last & Directions[k] == 0
    ensures DirectionEvents(id, k, last, value, bindings, base, cb) == [ButtonUp(id, b)]
            <==> last & Directions[k] != 0 && value & Directions[k] == 0
  {
    var bit := Directions[k];
    assert Changed(last, value, k) <==> (last & bit == 0) != (value & bit == 0) by {
      assert bit == 1 || bit == 2 || bit == 4 || bit == 8;
    }
  }

  /**
   * When the previous state is non-negative as a signed char (every state
   * `updateHatValue` stores is), an axis-bound direction always reports the
   * move as value -1 from 1, whether the direction was pressed or released.
   */
  lemma HatAxisAlwaysFromPositive(id: nat, last: bv8, value: bv8, bindings: seq<Option<Binding>>, base: nat, cb: Callbacks)
    requires BindingsReadable(last, value, bindings, base) && last < 0x80
    ensures forall e :: e in HatEvents(id, last, value, bindings, base, cb) && e.AxisMove? ==> e.value == -1 && e.lastValue == 1
  {
    assert SignedChar(last) >= 0;
    forall k | 0 <= k < 4
      ensures forall e :: e in DirectionEvents(id, k, last, value, bindings, base, cb) && e.AxisMove? ==> e.value == -1 && e.lastValue == 1
    {
    }
  }
}

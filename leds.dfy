/** The board's diagnostic LEDs, abstracted from their GPIO pins. */
module Leds {
  /** The three LEDs that the tasks toggle. */
  datatype LedId = Blue | Green | Red

  /** Whether each LED is currently lit (the level its GPIO pin reads back). */
  type LedState = map<LedId, bool>

  /** Every LED has a state: each one is a real output pin. */
  predicate Complete(s: LedState) {
    forall id: LedId :: id in s
  }

  /** The state after toggling one LED: that LED is negated, every other one is kept. */
  function Toggled(s: LedState, id: LedId): (r: LedState)
    requires id in s
    ensures r.Keys == s.Keys
    ensures r[id] == !s[id]
    ensures r - {id} == s - {id}
  {
    s[id := !s[id]]
  }

  /** Toggling the same LED twice restores the original state. */
  lemma ToggleTwice(s: LedState, id: LedId)
    requires id in s
    ensures Toggled(Toggled(s, id), id) == s
  {
  }

  /** The state after toggling one LED n times in a row. */
  function ToggledTimes(s: LedState, id: LedId, n: nat): (r: LedState)
    requires id in s
    ensures r.Keys == s.Keys
    ensures r - {id} == s - {id}
    decreases n
  {
    if n == 0 then s else Toggled(ToggledTimes(s, id, n - 1), id)
  }

  /** Only the parity of the number of toggles matters. */
  lemma {:induction false} ToggledTimesParity(s: LedState, id: LedId, n: nat)
    requires id in s
    ensures ToggledTimes(s, id, n) == if n % 2 == 0 then s else Toggled(s, id)
    decreases n
  {
    if n >= 2 {
      ToggledTimesParity(s, id, n - 2);
      ToggleTwice(ToggledTimes(s, id, n - 2), id);
    }
  }

  /** The state after toggling the given LEDs, in order. */
  function ApplyToggles(s: LedState, ids: seq<LedId>): (r: LedState)
    requires Complete(s)
    ensures Complete(r)
    decreases |ids|
  {
    if ids == [] then s
    else
      Toggled(ApplyToggles(s, ids[..|ids| - 1]), ids[|ids| - 1])
  }

  /** Toggling a concatenation is toggling its two parts one after the other. */
  lemma {:induction false} ApplyTogglesAppend(s: LedState, first: seq<LedId>, second: seq<LedId>)
    requires Complete(s)
    ensures ApplyToggles(s, first + second) == ApplyToggles(ApplyToggles(s, first), second)
    decreases |second|
  {
    if second != [] {
      var n := |second| - 1;
      assert (first + second)[..|first + second| - 1] == first + second[..n];
      ApplyTogglesAppend(s, first, second[..n]);
    } else {
      assert first + second == first;
    }
  }

  /** The LED pins, read and written by prvToggleLED. */
  class LedBank {
    var state: LedState

    ghost predicate Valid()
      reads this
    {
      Complete(state)
    }

    constructor (blue: bool, green: bool, red: bool)
      ensures Valid()
      ensures state == map[Blue := blue, Green := green, Red := red]
    {
      var pins := map[Blue := blue, Green := green, Red := red];
      forall id: LedId ensures id in pins {
        match id
        case Blue =>
        case Green =>
        case Red =>
      }
      state := pins;
    }

    /** Reads the pin level of one LED and writes back its negation. */
    method Toggle(id: LedId)
      requires Valid()
      modifies this
      ensures Valid()
      ensures state == Toggled(old(state), id)
    {
      var lit := state[id];
      state := state[id := !lit];
    }
  }
}

/**
 * The joypad register P1: two select bits written by the program and two
 * active-low nibbles, one for the direction pad and one for the action
 * buttons, where a cleared bit is a pressed key.  The class holds the four
 * fields the program updates; `JoypadState` is their value.
 */
module Joypad {
  import opened Wrappers

  /** The error pressing an unknown button panics with. */
  datatype Fault = InvalidButton(code: int)

  datatype JoypadState = JoypadState(selectDpad: bool, selectButtons: bool, buttons: bv8, dpad: bv8)

  const ResetState := JoypadState(false, false, 0, 0)

  /** The keys, in the order of their codes 0-7: four direction keys, then four action buttons. */
  datatype Button = Right | Left | Up | Down | A | B | Select | Start
  {
    predicate IsDpad()
    {
      Right? || Left? || Up? || Down?
    }

    /** The bit of its nibble the key stands for. */
    function Mask(): (m: bv8)
      ensures m == 0x01 || m == 0x02 || m == 0x04 || m == 0x08
    {
      match this
      case Right => 0x01
      case Left => 0x02
      case Up => 0x04
      case Down => 0x08
      case A => 0x01
      case B => 0x02
      case Select => 0x04
      case Start => 0x08
    }

    function Code(): (c: int)
      ensures 0 <= c < 8
      ensures IsDpad() <==> c < 4
    {
      match this
      case Right => 0
      case Left => 1
      case Up => 2
      case Down => 3
      case A => 4
      case B => 5
      case Select => 6
      case Start => 7
    }
  }

  /** The key a code names; any code outside 0-7 panics. */
  function ButtonOf(code: int): (res: Result<Button, Fault>)
    ensures res.Err? <==> !(0 <= code < 8)
    ensures res.Ok? ==> res.value.Code() == code
  {
    if code == 0 then Ok(Right)
    else if code == 1 then Ok(Left)
    else if code == 2 then Ok(Up)
    else if code == 3 then Ok(Down)
    else if code == 4 then Ok(A)
    else if code == 5 then Ok(B)
    else if code == 6 then Ok(Select)
    else if code == 7 then Ok(Start)
    else Err(InvalidButton(code))
  }

  lemma ButtonOfCode(b: Button)
    ensures ButtonOf(b.Code()) == Ok(b)
  {
  }

  /** Two keys of the same group stand for different bits. */
  lemma MaskDistinct(b1: Button, b2: Button)
    requires b1 != b2 && b1.IsDpad() == b2.IsDpad()
    ensures b1.Mask() & b2.Mask() == 0
  {
  }

  /** `v` with the bits of `m` cleared. */
  function Cleared(v: bv8, m: bv8): bv8
  {
    v & !m
  }

  /** P1 as read: the selected nibbles ORed together, 0 when nothing is selected. */
  function ReadSpec(j: JoypadState): (data: bv8)
    ensures !j.selectDpad && !j.selectButtons ==> data == 0
    ensures j.selectDpad && !j.selectButtons ==> data == j.dpad
    ensures !j.selectDpad && j.selectButtons ==> data == j.buttons
    ensures j.selectDpad && j.selectButtons ==> data == j.dpad | j.buttons
  {
    var d: bv8 := if j.selectDpad then j.dpad else 0;
    var b: bv8 := if j.selectButtons then j.buttons else 0;
    d | b
  }

  /** A write selects the direction pad when bit 4 is clear and the buttons when bit 5 is clear. */
  function WriteSpec(j: JoypadState, data: bv8): (r: JoypadState)
    ensures r.selectDpad <==> data & 0x10 == 0
    ensures r.selectButtons <==> data & 0x20 == 0
    ensures r.buttons == j.buttons && r.dpad == j.dpad
  {
    j.(selectDpad := data & 0x10 == 0, selectButtons := data & 0x20 == 0)
  }

  /** Every key released. */
  function ClearSpec(j: JoypadState): (r: JoypadState)
    ensures r.dpad == 0x0F && r.buttons == 0x0F
    ensures r.selectDpad == j.selectDpad && r.selectButtons == j.selectButtons
  {
    j.(dpad := 0x0F, buttons := 0x0F)
  }

  /** A press clears its key's bit in the key's nibble. */
  function PressSpec(j: JoypadState, b: Button): JoypadState
  {
    if b.IsDpad() then j.(dpad := Cleared(j.dpad, b.Mask()))
    else j.(buttons := Cleared(j.buttons, b.Mask()))
  }

  /**
   * A press of a direction key clears exactly its own bit: that bit reads
   * pressed afterwards, every other bit of the direction nibble, the
   * buttons nibble and the select bits are unchanged.
   */
  lemma PressDpad(j: JoypadState, b: Button)
    requires b.IsDpad()
    ensures var r := PressSpec(j, b);
      r.dpad & b.Mask() == 0 && r.dpad | b.Mask() == j.dpad | b.Mask() &&
      r.buttons == j.buttons && r.selectDpad == j.selectDpad && r.selectButtons == j.selectButtons
  {
  }

  /** The same for a press of an action button, on the other nibble. */
  lemma PressButton(j: JoypadState, b: Button)
    requires !b.IsDpad()
    ensures var r := PressSpec(j, b);
      r.buttons & b.Mask() == 0 && r.buttons | b.Mask() == j.buttons | b.Mask() &&
      r.dpad == j.dpad && r.selectDpad == j.selectDpad && r.selectButtons == j.selectButtons
  {
  }

  /** Pressing a key that is already pressed changes nothing. */
  lemma PressTwice(j: JoypadState, b: Button)
    ensures PressSpec(PressSpec(j, b), b) == PressSpec(j, b)
  {
  }

  /** Pressing a key reads as pressed through P1 whenever its group is selected and the other is not. */
  lemma PressReads(j: JoypadState, b: Button)
    requires b.IsDpad() ==> j.selectDpad && !j.selectButtons
    requires !b.IsDpad() ==> j.selectButtons && !j.selectDpad
    ensures ReadSpec(PressSpec(j, b)) & b.Mask() == 0
  {
  }

  /** Pressing the keys in `presses` one after another. */
  function PressAll(j: JoypadState, presses: seq<Button>): JoypadState
    decreases |presses|
  {
    if presses == [] then j else PressAll(PressSpec(j, presses[0]), presses[1..])
  }

  /** Presses only clear bits, so nibbles within the low four bits stay there. */
  lemma {:induction false} PressesStayInNibble(j: JoypadState, presses: seq<Button>)
    requires j.dpad <= 0x0F && j.buttons <= 0x0F
    ensures PressAll(j, presses).dpad <= 0x0F && PressAll(j, presses).buttons <= 0x0F
    decreases |presses|
  {
    if presses != [] {
      var j1 := PressSpec(j, presses[0]);
      assert j1.dpad <= 0x0F && j1.buttons <= 0x0F;
      PressesStayInNibble(j1, presses[1..]);
    }
  }

  /** After a clear, any run of presses keeps both nibbles within 0x0F. */
  lemma ClearThenPresses(j: JoypadState, presses: seq<Button>)
    ensures PressAll(ClearSpec(j), presses).dpad <= 0x0F
    ensures PressAll(ClearSpec(j), presses).buttons <= 0x0F
  {
    PressesStayInNibble(ClearSpec(j), presses);
  }

  class Joypad {
    var selectDpad: bool
    var selectButtons: bool
    var buttons: bv8
    var dpad: bv8

    function State(): JoypadState
      reads this
    {
      JoypadState(selectDpad, selectButtons, buttons, dpad)
    }

    constructor ()
      ensures State() == ResetState
    {
      selectDpad, selectButtons, buttons, dpad := false, false, 0, 0;
    }

    method Reset()
      modifies this
      ensures State() == ResetState
    {
      selectDpad := false;
      selectButtons := false;
      buttons := 0;
      dpad := 0;
    }

    method Read() returns (data: bv8)
      ensures data == ReadSpec(State())
    {
      data := 0x00;
      if selectDpad {
        data := data | dpad;
      }
      if selectButtons {
        data := data | buttons;
      }
    }

    method Write(data: bv8)
      modifies this
      ensures State() == WriteSpec(old(State()), data)
    {
      selectDpad := data & 0x10 == 0;
      selectButtons := data & 0x20 == 0;
    }

    method Clear()
      modifies this
      ensures State() == ClearSpec(old(State()))
    {
      dpad := 0x0F;
      buttons := 0x0F;
    }

    /** Each key clears its own bit of its own nibble. */
    method Press(b: Button)
      modifies this
      ensures State() == PressSpec(old(State()), b)
    {
      if b.IsDpad() {
        dpad := Cleared(dpad, b.Mask());
      } else {
        buttons := Cleared(buttons, b.Mask());
      }
    }
  }
}

/** The interrupt line aggregator: shared pins, redirection entries and no lost level. */
module Ioapic {
  import opened Words

  const PINS: nat := 24
  const MAX_DEVICES: nat := 37
  const REGISTER_SELECT: nat := 0
  const WINDOW: nat := 0x10
  const VERSION_REGISTER: nat := 1
  const VERSION: bv32 := 0x17_0011
  const REDIRECTION_BASE: nat := 0x10
  const MASKED: bv32 := 0x1_0000
  const LEVEL_TRIGGERED: bv32 := 0x8000

  datatype Entry = Entry(low: bv32, high: bv32)
  datatype Interrupt = Interrupt(vector: bv8, destination: bv8, levelTriggered: bool)

  predicate IsMasked(low: bv32) {
    low & MASKED != 0
  }

  predicate IsLevel(low: bv32) {
    low & LEVEL_TRIGGERED != 0
  }

  function Vector(low: bv32): bv8 {
    (low & 0xff) as bv8
  }

  function Destination(high: bv32): bv8 {
    (high >> 24) as bv8
  }

  /** What a redirection entry delivers, unless it is masked. */
  function Delivered(e: Entry): Option<Interrupt> {
    if IsMasked(e.low) then None else Some(Interrupt(Vector(e.low), Destination(e.high), IsLevel(e.low)))
  }

  // ----- The fields as numbers

  /** Whether the word has an odd number of the given units. */
  predicate IsOddIn(word: bv32, unit: bv32)
    requires unit != 0
  {
    (word / unit) % 2 == 1
  }

  predicate IsLowByte(word: bv32, byte: bv8) {
    byte as bv32 == word % 256
  }

  predicate IsHighByte(word: bv32, byte: bv8) {
    byte as bv32 == word / 0x100_0000
  }

  lemma MaskBit(low: bv32)
    ensures IsMasked(low) <==> IsOddIn(low, 0x1_0000)
  {
  }

  lemma ModeBit(low: bv32)
    ensures IsLevel(low) <==> IsOddIn(low, 0x8000)
  {
  }

  lemma VectorByte(low: bv32)
    ensures IsLowByte(low, Vector(low))
  {
  }

  lemma DestinationByte(high: bv32)
    ensures IsHighByte(high, Destination(high))
  {
  }

  lemma OneLowByte(word: bv32, a: bv8, b: bv8)
    requires IsLowByte(word, a) && IsLowByte(word, b)
    ensures a == b
  {
  }

  /** The mask is bit 16 and the trigger mode bit 15 of the low word, the vector its lowest byte, and the destination the
      highest byte of the high word. */
  predicate Describes(low: bv32, high: bv32, interrupt: Option<Interrupt>) {
    if IsOddIn(low, 0x1_0000) then interrupt.None?
    else
      && interrupt.Some? && IsLowByte(low, interrupt.value.vector) && IsHighByte(high, interrupt.value.destination)
      && (interrupt.value.levelTriggered <==> IsOddIn(low, 0x8000))
  }

  lemma DeliveredFields(e: Entry)
    ensures Describes(e.low, e.high, Delivered(e))
  {
    hide IsMasked, IsLevel, Vector, Destination, IsOddIn, IsLowByte, IsHighByte;
    MaskBit(e.low);
    ModeBit(e.low);
    VectorByte(e.low);
    DestinationByte(e.high);
  }

  /** The entry is unmasked, level-triggered and has the vector. */
  predicate Fires(e: Entry, vector: bv8) {
    !IsOddIn(e.low, 0x1_0000) && IsOddIn(e.low, 0x8000) && IsLowByte(e.low, vector)
  }

  /** Which pins are asserted with an entry that fires. */
  function Selected(redirection: seq<Entry>, asserted: seq<bool>, vector: bv8): (selected: seq<bool>)
    requires |redirection| == |asserted|
    ensures |selected| == |asserted|
  {
    seq(|asserted|, i requires 0 <= i < |asserted| => asserted[i] && Fires(redirection[i], vector))
  }

  /** The positions below `n` that are set, in order. */
  function Positions(flags: seq<bool>, n: nat): (pins: seq<nat>)
    requires n <= |flags|
    ensures forall k :: 0 <= k < |pins| ==> pins[k] < n
    ensures forall i, j :: 0 <= i < j < |pins| ==> pins[i] < pins[j]
    ensures forall pin :: 0 <= pin < n ==> (pin in pins <==> flags[pin])
  {
    if n == 0 then [] else Positions(flags, n - 1) + if flags[n - 1] then [n - 1] else []
  }

  lemma FiresDelivers(e: Entry, vector: bv8)
    ensures var i := Delivered(e);
            Fires(e, vector) <==> i.Some? && i.value.levelTriggered && i.value.vector == vector
  {
    hide IsMasked, IsLevel, Vector, Destination, IsOddIn, IsLowByte, IsHighByte;
    DeliveredFields(e);
    VectorByte(e.low);
    if Fires(e, vector) { OneLowByte(e.low, vector, Vector(e.low)); }
  }

  /** The entry, if it is not masked, is what was last emitted. */
  predicate Announced(e: Entry, emitted: Option<Interrupt>) {
    Delivered(e).Some? ==> emitted == Delivered(e)
  }

  /** Some slot routed to the pin is high. */
  predicate Driven(routes: seq<nat>, levels: seq<bool>, pin: nat)
    requires |routes| == |levels|
  {
    exists slot :: 0 <= slot < |routes| && routes[slot] == pin && levels[slot]
  }

  /** Reported changes of one line: first a rise, then in turn falls and rises, ending at the line's level. */
  predicate Alternates(changes: seq<bool>, level: bool) {
    && (forall i :: 0 <= i < |changes| ==> changes[i] == (i % 2 == 0))
    && level == (|changes| % 2 == 1)
  }

  /** The pin and half that the selected register addresses. */
  function RedirectionHalf(register: nat): Option<(nat, nat)> {
    if register < REDIRECTION_BASE || (register - REDIRECTION_BASE) / 2 >= PINS then None
    else Some(((register - REDIRECTION_BASE) / 2, (register - REDIRECTION_BASE) % 2))
  }

  function WithHalf(e: Entry, half: nat, value: bv32): Entry {
    if half == 0 then e.(low := value) else e.(high := value)
  }

  class Controller {
    const routes: seq<nat>
    var levels: seq<bool>
    var register: bv8
    var redirection: seq<Entry>
    var asserted: seq<bool>
    /** Per pin: every change reported, and the last interrupt emitted since the line last rose. */
    ghost var reported: seq<seq<bool>>
    ghost var emitted: seq<Option<Interrupt>>

    /** Every pin is the OR of its slots, and its reported changes alternate. */
    ghost predicate Shape()
      reads this
    {
      && |levels| == |routes|
      && |redirection| == |asserted| == |reported| == |emitted| == PINS
      && (forall slot :: 0 <= slot < |routes| ==> routes[slot] < PINS)
      && (forall pin :: 0 <= pin < PINS ==> Alternates(reported[pin], asserted[pin]))
      && (forall pin :: 0 <= pin < PINS ==> asserted[pin] == Driven(routes, levels, pin))
    }

    /** An asserted unmasked pin has emitted its current entry since it rose. */
    ghost predicate Valid()
      reads this
    {
      Shape() && forall pin :: 0 <= pin < PINS && asserted[pin] ==> Announced(redirection[pin], emitted[pin])
    }

    constructor (routes: seq<nat>)
      requires forall slot :: 0 <= slot < |routes| ==> routes[slot] < PINS
      ensures Valid() && this.routes == routes && levels == seq(|routes|, i => false)
      ensures redirection == seq(PINS, i => Entry(MASKED, 0)) && register == 0
    {
      this.routes := routes;
      levels := seq(|routes|, i => false);
      register := 0;
      redirection := seq(PINS, i => Entry(MASKED, 0));
      asserted := seq(PINS, i => false);
      reported := seq(PINS, i => []);
      emitted := seq(PINS, i => None);
    }

    /** Sets a slot's level and returns the line whose aggregate level changed; a line that rose is yet to be delivered. */
    method Line(slot: nat, level: bool) returns (result: Option<Option<nat>>)
      requires Shape()
      modifies this`levels, this`asserted, this`reported, this`emitted
      ensures Shape() && (result.None? <==> slot >= |routes|)
      ensures result.None? ==> levels == old(levels) && asserted == old(asserted) && reported == old(reported) && emitted == old(emitted)
      ensures result.Some? ==>
                var gsi := routes[slot];
                && levels == old(levels)[slot := level]
                && asserted == old(asserted)[gsi := Driven(routes, levels, gsi)]
                && (result.value == if asserted[gsi] != old(asserted)[gsi] then Some(gsi) else None)
                && reported == (if result.value.Some? then old(reported)[gsi := old(reported)[gsi] + [asserted[gsi]]] else old(reported))
                && emitted == (if result.value.Some? then old(emitted)[gsi := None] else old(emitted))
    {
      if slot >= |routes| {
        return None;
      }
      var gsi := routes[slot];
      levels := levels[slot := level];
      OtherPins(routes, old(levels), slot, level);
      var aggregated := AnyDriven(gsi);
      if asserted[gsi] == aggregated {
        return Some(None);
      }
      asserted := asserted[gsi := aggregated];
      reported := reported[gsi := reported[gsi] + [aggregated]];
      emitted := emitted[gsi := None];
      return Some(Some(gsi));
    }

    method AnyDriven(gsi: nat) returns (aggregated: bool)
      requires |routes| == |levels|
      ensures aggregated == Driven(routes, levels, gsi)
    {
      aggregated := false;
      for i := 0 to |routes|
        invariant aggregated <==> exists slot :: 0 <= slot < i && routes[slot] == gsi && levels[slot]
      {
        if routes[i] == gsi && levels[i] {
          aggregated := true;
        }
      }
    }

    /** A rise is delivered at once when its entry is not masked. */
    method IoapicLine(slot: nat, level: bool) returns (result: Option<Option<Interrupt>>)
      requires Valid()
      modifies this`levels, this`asserted, this`reported, this`emitted
      ensures Valid()
      ensures result.None? <==> slot >= |routes|
      ensures result.None? ==> levels == old(levels)
      ensures result.Some? ==> levels == old(levels)[slot := level]
      ensures result.Some? ==>
                var gsi := routes[slot];
                result.value == if asserted[gsi] && !old(asserted)[gsi] then Delivered(redirection[gsi]) else None
    {
      hide Delivered, Alternates, Driven;
      var changed := Line(slot, level);
      if changed.None? {
        return None;
      }
      if changed.value.Some? && asserted[changed.value.value] {
        var pin := changed.value.value;
        var interrupt := Delivered(redirection[pin]);
        emitted := emitted[pin := interrupt];
        return Some(interrupt);
      }
      return Some(None);
    }

    /** A register access; a write to an asserted pin's entry delivers it again. */
    method Access(offset: nat, width: nat, write: bool, value: bv32) returns (read: bv32, interrupt: Option<Interrupt>)
      requires Valid()
      modifies this`register, this`redirection, this`emitted
      ensures Valid()
      ensures register == if offset == REGISTER_SELECT && width == 4 && write then (value & 0xff) as bv8 else old(register)
      ensures var target := RedirectionHalf(old(register) as nat);
              if offset == WINDOW && width == 4 && write && target.Some?
              then var (pin, half) := target.value;
                   && redirection == old(redirection)[pin := WithHalf(old(redirection)[pin], half, value)]
                   && interrupt == (if asserted[pin] then Delivered(redirection[pin]) else None)
              else redirection == old(redirection) && interrupt.None?
      ensures read == if width != 4 || write then 0
                      else if offset == REGISTER_SELECT then register as bv32
                      else if offset == WINDOW then ReadRegister()
                      else 0
    {
      hide Delivered, Alternates, Driven;
      read, interrupt := 0, None;
      if width != 4 {
        return;
      }
      if offset == REGISTER_SELECT {
        if write {
          register := (value & 0xff) as bv8;
        } else {
          read := register as bv32;
        }
      } else if offset == WINDOW {
        if write {
          var target := RedirectionHalf(register as nat);
          if target.Some? {
            var (pin, half) := target.value;
            redirection := redirection[pin := WithHalf(redirection[pin], half, value)];
            if asserted[pin] {
              interrupt := Delivered(redirection[pin]);
              emitted := emitted[pin := interrupt];
            }
          }
        } else {
          read := ReadRegister();
        }
      }
    }

    function ReadRegister(): bv32
      requires |redirection| == PINS
      reads this`register, this`redirection
    {
      if register as nat == VERSION_REGISTER then VERSION
      else
        var target := RedirectionHalf(register as nat);
        if target.None? then 0
        else if target.value.1 == 0 then redirection[target.value.0].low else redirection[target.value.0].high
    }

    /** An end of interrupt delivers every still asserted level-triggered pin with that vector again, in pin order. */
    method EndOfInterrupt(vector: bv8) returns (interrupts: seq<Interrupt>)
      requires Valid()
      ensures var pins := Positions(Selected(redirection, asserted, vector), PINS);
              && |interrupts| == |pins|
              && forall k :: 0 <= k < |pins| ==>
                   Describes(redirection[pins[k]].low, redirection[pins[k]].high, Some(interrupts[k]))
    {
      hide Delivered, Driven, Alternates, Announced, Fires, Describes;
      ghost var selected := Selected(redirection, asserted, vector);
      interrupts := [];
      for pin := 0 to PINS
        invariant var pins := Positions(selected, pin);
                  && |interrupts| == |pins|
                  && forall k :: 0 <= k < |pins| ==>
                       Describes(redirection[pins[k]].low, redirection[pins[k]].high, Some(interrupts[k]))
      {
        FiresDelivers(redirection[pin], vector);
        DeliveredFields(redirection[pin]);
        if asserted[pin] {
          var interrupt := Delivered(redirection[pin]);
          if interrupt.Some? && interrupt.value.levelTriggered && interrupt.value.vector == vector {
            interrupts := interrupts + [interrupt.value];
          }
        }
      }
    }
  }

  lemma SelectedByte(register: bv8)
    ensures (register as bv32 & 0xff) as bv8 == register
  {
  }

  /** Selects a register, writes it and reads it back. */
  method ProgramHalf(c: Controller, register: bv8, pin: nat, half: nat, value: bv32) returns (read: bv32)
    requires c.Valid() && pin < PINS && half < 2 && register as nat == REDIRECTION_BASE + 2 * pin + half
    modifies c`register, c`redirection, c`emitted
    ensures c.Valid() && read == value
    ensures c.redirection == old(c.redirection)[pin := WithHalf(old(c.redirection)[pin], half, value)]
  {
    hide Delivered, Announced, Driven, Alternates;
    SelectedByte(register);
    var selected, none := c.Access(REGISTER_SELECT, 4, true, register as bv32);
    assert RedirectionHalf(c.register as nat) == Some((pin, half));
    var written, interrupt := c.Access(WINDOW, 4, true, value);
    read, none := c.Access(WINDOW, 4, false, 0);
  }

  /** What a driver sees: it programs both words of a pin's entry, reads them back, and a rise of a slot routed to the idle
      pin then delivers exactly the interrupt they describe, or none when the entry is masked. */
  method ProgramAndRaise(c: Controller, slot: nat, lowRegister: bv8, highRegister: bv8, low: bv32, high: bv32)
    returns (readLow: bv32, readHigh: bv32, raised: Option<Interrupt>)
    requires c.Valid() && slot < |c.routes| && !c.asserted[c.routes[slot]]
    requires lowRegister as nat == REDIRECTION_BASE + 2 * c.routes[slot] && highRegister as nat == REDIRECTION_BASE + 2 * c.routes[slot] + 1
    modifies c
    ensures c.Valid() && readLow == low && readHigh == high
    ensures Describes(low, high, raised)
  {
    hide Delivered, Announced, Driven, Alternates, Describes;
    var pin := c.routes[slot];
    readHigh := ProgramHalf(c, highRegister, pin, 1, high);
    readLow := ProgramHalf(c, lowRegister, pin, 0, low);
    DeliveredFields(Entry(low, high));
    var result := c.IoapicLine(slot, true);
    assert c.asserted[pin] by { DrivenBySlot(c, slot); }
    raised := result.value;
  }

  lemma DrivenBySlot(c: Controller, slot: nat)
    requires c.Valid() && slot < |c.routes| && c.levels[slot]
    ensures c.asserted[c.routes[slot]]
  {
  }

  /** Refuses more slots than devices and routes beyond the pins. */
  method Configure(routes: seq<nat>) returns (controller: Option<Controller>)
    ensures controller.Some? <==> |routes| <= MAX_DEVICES && forall slot :: 0 <= slot < |routes| ==> routes[slot] < PINS
    ensures controller.Some? ==> fresh(controller.value) && controller.value.Valid() && controller.value.routes == routes
  {
    if |routes| > MAX_DEVICES {
      return None;
    }
    for slot := 0 to |routes|
      invariant forall k :: 0 <= k < slot ==> routes[k] < PINS
    {
      if routes[slot] >= PINS {
        return None;
      }
    }
    var c := new Controller(routes);
    return Some(c);
  }

  /** A slot's level does not move the pins it is not routed to. */
  lemma OtherPins(routes: seq<nat>, levels: seq<bool>, slot: nat, level: bool)
    requires |routes| == |levels| && slot < |routes|
    ensures forall pin :: pin != routes[slot] ==> (Driven(routes, levels[slot := level], pin) <==> Driven(routes, levels, pin))
  {
    var after := levels[slot := level];
    forall pin | pin != routes[slot]
      ensures Driven(routes, after, pin) <==> Driven(routes, levels, pin)
    {
      if Driven(routes, levels, pin) {
        var s :| 0 <= s < |routes| && routes[s] == pin && levels[s];
        assert after[s];
      }
      if Driven(routes, after, pin) {
        var s :| 0 <= s < |routes| && routes[s] == pin && after[s];
        assert levels[s];
      }
    }
  }
}

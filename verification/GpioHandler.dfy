/**
 The interrupt handler of zephyr/src/device/gpio.rs: a loop over the bits of a 32-bit word.  A word is the
 set of its one bits; `WordIsNumber` ties that to the number.
 */
module GpioHandler {
  import opened Prelude

  type Word = set<nat>

  ghost predicate Is32(x: Word) { forall i :: i in x ==> i < 32 }

  // The lowest bit at or above `i`; 32 if there is none.
  function TrailingFrom(x: Word, i: nat): (r: nat)
    requires i <= 32
    ensures i <= r <= 32
    ensures r < 32 ==> r in x
    ensures forall j :: i <= j < r ==> j !in x
    decreases 32 - i
  {
    if i == 32 || i in x then i else TrailingFrom(x, i + 1)
  }

  // u32::trailing_zeros
  function TrailingZeros(x: Word): nat { TrailingFrom(x, 0) }

  // The pins of a word at or above `i`, lowest first.
  function PinsFrom(x: Word, i: nat): seq<nat>
    requires i <= 32
    decreases 32 - i
  {
    if i == 32 then [] else if i in x then [i] + PinsFrom(x, i + 1) else PinsFrom(x, i + 1)
  }

  function Pins(x: Word): seq<nat> { PinsFrom(x, 0) }

  // Each pin of the word once, in order.
  lemma {:induction false} PinsAre(x: Word, i: nat)
    requires i <= 32
    ensures forall p :: p in PinsFrom(x, i) <==> i <= p < 32 && p in x
    ensures forall a, b :: 0 <= a < b < |PinsFrom(x, i)| ==> PinsFrom(x, i)[a] < PinsFrom(x, i)[b]
    decreases 32 - i
  {
    if i < 32 {
      PinsAre(x, i + 1);
      var r := PinsFrom(x, i + 1);
      assert forall a :: 0 <= a < |r| ==> r[a] in r;
    }
  }

  lemma {:induction false} PinsSame(x: Word, y: Word, i: nat)
    requires i <= 32 && forall j :: i <= j < 32 ==> (j in x <==> j in y)
    ensures PinsFrom(x, i) == PinsFrom(y, i)
    decreases 32 - i
  {
    if i < 32 { PinsSame(x, y, i + 1); }
  }

  // Clearing the lowest bit removes the first pin.
  lemma {:induction false} PinsStep(x: Word, i: nat, t: nat)
    requires i <= t < 32 && t in x && forall j :: i <= j < t ==> j !in x
    ensures PinsFrom(x, i) == [t] + PinsFrom(x - {t}, i)
    decreases 32 - i
  {
    if i < t {
      PinsStep(x, i + 1, t);
    } else {
      PinsSame(x, x - {t}, t + 1);
    }
  }

  lemma {:induction false} NoPins(i: nat)
    requires i <= 32
    ensures PinsFrom({}, i) == []
    decreases 32 - i
  {
    if i < 32 { NoPins(i + 1); }
  }

  lemma Lowest(x: Word)
    requires Is32(x) && x != {}
    ensures TrailingZeros(x) < 32
    ensures Pins(x) == [TrailingZeros(x)] + Pins(x - {TrailingZeros(x)})
  {
    var i :| i in x;
    PinsStep(x, 0, TrailingZeros(x));
  }

  // ---------------------------------------------------------------- sets of bits and numbers

  function Power(n: nat): nat { if n == 0 then 1 else 2 * Power(n - 1) }

  function ShiftRight(v: nat, n: nat): nat { if n == 0 then v else ShiftRight(v / 2, n - 1) }

  // How often a number can be halved: the zeros below its lowest one bit.
  function ZerosBelow(v: nat): (n: nat)
    requires v > 0
  {
    if v % 2 == 1 then 0 else 1 + ZerosBelow(v / 2)
  }

  // The number whose bits are those of the word from `i` on.
  function Number(x: Word, i: nat): nat
    requires i <= 32
    decreases 32 - i
  {
    if i == 32 then 0 else (if i in x then 1 else 0) + 2 * Number(x, i + 1)
  }

  lemma {:induction false} NumberBits(x: Word, i: nat, t: nat)
    requires i <= t < 32
    ensures ShiftRight(Number(x, i), t - i) % 2 == 1 <==> t in x
    decreases 32 - i
  {
    if i < t { NumberBits(x, i + 1, t); }
  }

  lemma {:induction false} NumberBelow(x: Word, i: nat)
    requires i <= 32
    ensures Number(x, i) < Power(32 - i)
    decreases 32 - i
  {
    if i < 32 { NumberBelow(x, i + 1); }
  }

  lemma {:induction false} NumberSame(x: Word, y: Word, i: nat)
    requires i <= 32 && forall j :: i <= j < 32 ==> (j in x <==> j in y)
    ensures Number(x, i) == Number(y, i)
    decreases 32 - i
  {
    if i < 32 { NumberSame(x, y, i + 1); }
  }

  lemma {:induction false} NumberWithout(x: Word, i: nat, t: nat)
    requires i <= t < 32 && t in x
    ensures Number(x, i) == Number(x - {t}, i) + Power(t - i)
    decreases 32 - i
  {
    if i < t { NumberWithout(x, i + 1, t); } else { NumberSame(x, x - {t}, i + 1); }
  }

  lemma {:induction false} NumberZeros(x: Word, i: nat, t: nat)
    requires i <= t < 32 && t in x && forall j :: i <= j < t ==> j !in x
    ensures Number(x, i) > 0 && ZerosBelow(Number(x, i)) == t - i
    decreases 32 - i
  {
    if i < t { NumberZeros(x, i + 1, t); }
  }

  // A set of bits stands for a number, below the 32nd power of two (`NumberBelow`): its members are the number's
  // one bits, leaving one out or putting one in subtracts or adds its power of two, and its least member is the
  // number's count of trailing zeros.  This holds from any bit `i` on; `i` is zero for the whole word.
  lemma WordIsNumber(x: Word, i: nat, t: nat)
    requires Is32(x) && i <= t < 32
    ensures ShiftRight(Number(x, i), t - i) % 2 == 1 <==> t in x
    ensures t in x ==> Number(x - {t}, i) == Number(x, i) - Power(t - i)
    ensures t !in x ==> Number(x + {t}, i) == Number(x, i) + Power(t - i)
    ensures TrailingFrom(x, i) < 32 ==>
      Number(x, i) > 0 && i + ZerosBelow(Number(x, i)) == TrailingFrom(x, i)
  {
    NumberBits(x, i, t);
    if t in x {
      NumberWithout(x, i, t);
    } else {
      NumberWithout(x + {t}, i, t);
      assert x + {t} - {t} == x;
    }
    if TrailingFrom(x, i) < 32 {
      NumberZeros(x, i, TrailingFrom(x, i));
    }
    hide Number, Power, ZerosBelow, ShiftRight, TrailingFrom;
  }

  class GpioStatic {
    var enabled: Word    // pins whose interrupt the controller delivers
    var pinMask: Word    // callback.pin_mask
    var fired: Word
    var wakes: seq<nat>  // pins whose waker was woken

    constructor ()
      ensures enabled == {} && pinMask == {} && fired == {} && wakes == []
    {
      enabled, pinMask, fired, wakes := {}, {}, {}, [];
    }

    // `callback_handler`: exactly the given pins are switched off, marked as fired and woken, lowest first.
    method CallbackHandler(given: Word)
      requires Is32(given)
      modifies this
      ensures enabled == old(enabled) - given
      ensures pinMask == old(pinMask) - given
      ensures fired == old(fired) + given
      ensures wakes == old(wakes) + Pins(given)
    {
      hide PinsFrom, TrailingFrom;
      var pins := given;
      NoPins(0);
      ghost var had := [];
      while pins != {}
        invariant pins <= given
        invariant enabled == old(enabled) - (given - pins)
        invariant pinMask == old(pinMask) - (given - pins)
        invariant fired == old(fired) + (given - pins)
        invariant wakes == old(wakes) + had && had + Pins(pins) == Pins(given)
        decreases pins
      {
        Lowest(pins);
        var pin := TrailingZeros(pins);
        pins := pins - {pin};
        enabled := enabled - {pin};
        pinMask := pinMask - {pin};
        fired := fired + {pin};
        wakes := wakes + [pin];
        had := had + [pin];
      }
    }

    // `has_fired`: tells whether the pin has fired, and forgets it.
    method HasFired(pin: nat) returns (r: bool)
      requires pin < 32
      modifies this`fired
      ensures r == (pin in old(fired))
      ensures fired == old(fired) - {pin}
    {
      var value := fired;
      fired := fired - {pin};
      r := pin in value;
    }
  }
}

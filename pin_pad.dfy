/**
 * The generic PIN pad used during onboarding: a digit buffer that reports the
 * buffer once it reaches the configured length and empties itself 300 ms later.
 * The reset timer is the `ResetFires` event.
 */
module PinPad {
  import opened Strings

  /** The default PIN length. */
  const DEFAULT_PIN_LENGTH: nat := 4

  /** The dots drawn: `pinLength` of them, the first `filled` drawn filled. */
  function Dots(pinLength: nat, filled: nat): (dots: seq<bool>)
    ensures |dots| == pinLength
    ensures forall i :: 0 <= i < pinLength ==> (dots[i] <==> i < filled)
  {
    seq(pinLength, i requires 0 <= i < pinLength => i < filled)
  }

  /** How many dots are filled. */
  function CountFilled(dots: seq<bool>): nat
  {
    if dots == [] then 0 else CountFilled(dots[..|dots| - 1]) + (if dots[|dots| - 1] then 1 else 0)
  }

  /** The number of filled dots is the buffer length, capped at the PIN length. */
  lemma {:induction false} FilledDotsCount(pinLength: nat, filled: nat)
    ensures CountFilled(Dots(pinLength, filled)) == if filled < pinLength then filled else pinLength
    decreases pinLength
  {
    if pinLength > 0 {
      FilledDotsCount(pinLength - 1, filled);
      assert Dots(pinLength, filled)[..pinLength - 1] == Dots(pinLength - 1, filled);
    }
  }

  class PinPad {
    const pinLength: nat
    var pin: string
    var pendingResets: nat

    constructor (pinLength: nat)
      ensures this.pinLength == pinLength && pin == "" && pendingResets == 0
    {
      this.pinLength := pinLength;
      pin, pendingResets := "", 0;
    }

    /** The dots as drawn for the current buffer: dot `i` is filled when `i < pin.length`, in UTF-16 units. */
    function Drawn(): (dots: seq<bool>)
      reads this
      ensures |dots| == pinLength
      ensures forall i :: 0 <= i < pinLength ==> (dots[i] <==> i < Utf16Length(pin))
    {
      Dots(pinLength, Utf16Length(pin))
    }

    /**
     * `handlePress(digit)`: appends the digit; exactly when the buffer reaches the
     * PIN length it is reported (`onComplete`) and a reset is scheduled. A shorter
     * buffer reports nothing.
     */
    method HandlePress(digit: string) returns (completed: Completion)
      modifies this
      ensures pin == old(pin) + digit
      ensures completed == if Utf16Length(old(pin) + digit) == pinLength then Entered(old(pin) + digit) else Nothing
      ensures pendingResets == old(pendingResets) + (if completed.Entered? then 1 else 0)
    {
      var newPin := pin + digit;
      pin := newPin;
      completed := Nothing;
      if Utf16Length(newPin) == pinLength {
        completed := Entered(newPin);
        pendingResets := pendingResets + 1;
      }
    }

    /** `handleDelete`: drops the last character; an empty buffer stays empty. */
    method HandleDelete()
      modifies this
      ensures pin == if old(pin) == "" then "" else old(pin)[..|old(pin)| - 1]
      ensures pendingResets == old(pendingResets)
    {
      if pin != "" {
        pin := pin[..|pin| - 1];
      }
    }

    /** The 300 ms reset after completion: the buffer empties. */
    method ResetFires()
      requires pendingResets > 0
      modifies this
      ensures pin == "" && pendingResets == old(pendingResets) - 1
    {
      pin := "";
      pendingResets := pendingResets - 1;
    }
  }

  /** What `onComplete` received, if it was called. */
  datatype Completion = Nothing | Entered(pin: string)

  /** Four one-unit keys on a default pad complete it with exactly those keys. */
  method FourDigitsComplete(a: string, b: string, c: string, d: string) returns (completed: Completion)
    requires Utf16Length(a) == 1 && Utf16Length(b) == 1 && Utf16Length(c) == 1 && Utf16Length(d) == 1
    ensures completed == Entered(a + b + c + d)
  {
    Utf16LengthAppend(a, b);
    Utf16LengthAppend(a + b, c);
    Utf16LengthAppend(a + b + c, d);
    var pad := new PinPad(DEFAULT_PIN_LENGTH);
    completed := pad.HandlePress(a);
    completed := pad.HandlePress(b);
    completed := pad.HandlePress(c);
    completed := pad.HandlePress(d);
  }
}

/**
 * The clock disguise: holding the time display for two seconds reveals a PIN
 * pad; the digits typed there are compared with the PIN once they are as long as
 * the PIN, both counted in UTF-16 code units. A wrong PIN shows an error that clears itself
 * after half a second; a cancel key hides the pad.
 *
 * Timers are events: `HoldTimerFires` is the 2000 ms long-press timer and
 * `ErrorResetFires` the 500 ms reset. The wall clock display is not modelled.
 */
module Clock {
  import opened Strings

  /** The long-press timer handle: none, set and pending, or set but already fired. */
  datatype HoldTimer = NoHandle | Armed | Fired

  class ClockDisguise {
    const pin: string
    var showPinInput: bool
    var pinInput: string
    var pinError: bool
    var holdTimer: HoldTimer
    var pendingResets: nat

    constructor (pin: string)
      ensures this.pin == pin && !showPinInput && pinInput == "" && !pinError
      ensures holdTimer == NoHandle && pendingResets == 0
    {
      this.pin := pin;
      showPinInput, pinInput, pinError := false, "", false;
      holdTimer, pendingResets := NoHandle, 0;
    }

    /** `handleLongPressIn`: arms the 2000 ms timer. A press begins only after the previous one ended. */
    method PressIn()
      requires holdTimer != Armed
      modifies this
      ensures holdTimer == Armed
      ensures showPinInput == old(showPinInput) && pinInput == old(pinInput) && pinError == old(pinError)
      ensures pendingResets == old(pendingResets)
    {
      holdTimer := Armed;
    }

    /** `handleLongPressOut`: clears a set handle, so a pending timer never fires. */
    method PressOut()
      modifies this
      ensures holdTimer == NoHandle
      ensures showPinInput == old(showPinInput) && pinInput == old(pinInput) && pinError == old(pinError)
      ensures pendingResets == old(pendingResets)
    {
      if holdTimer != NoHandle {
        holdTimer := NoHandle;
      }
    }

    /** The long-press timer fires: the pad shows with an empty buffer and no error. */
    method HoldTimerFires()
      modifies this
      ensures old(holdTimer) == Armed ==>
        showPinInput && pinInput == "" && !pinError && holdTimer == Fired
      ensures old(holdTimer) != Armed ==>
        showPinInput == old(showPinInput) && pinInput == old(pinInput) && pinError == old(pinError)
        && holdTimer == old(holdTimer)
      ensures pendingResets == old(pendingResets)
    {
      if holdTimer == Armed {
        showPinInput := true;
        pinInput := "";
        pinError := false;
        holdTimer := Fired;
      }
    }

    /**
     * `handlePinDigit(digit)`: appends the digit. Only when the buffer reaches the
     * PIN's length is it compared: equal unlocks; different shows the error and
     * schedules the reset.
     */
    method HandlePinDigit(digit: string) returns (unlock: bool)
      requires showPinInput
      modifies this
      ensures pinInput == old(pinInput) + digit
      ensures unlock <==> Utf16Length(old(pinInput) + digit) == Utf16Length(pin) && old(pinInput) + digit == pin
      ensures Utf16Length(old(pinInput) + digit) == Utf16Length(pin) && !unlock ==> pinError && pendingResets == old(pendingResets) + 1
      ensures Utf16Length(old(pinInput) + digit) != Utf16Length(pin) || unlock ==>
        pinError == old(pinError) && pendingResets == old(pendingResets)
      ensures showPinInput && holdTimer == old(holdTimer)
    {
      var newPin := pinInput + digit;
      pinInput := newPin;
      unlock := false;
      if Utf16Length(newPin) == Utf16Length(pin) {
        if newPin == pin {
          unlock := true;
        } else {
          pinError := true;
          pendingResets := pendingResets + 1;
        }
      }
    }

    /** The 500 ms reset after a wrong PIN: empty buffer, no error; the pad stays open. */
    method ErrorResetFires()
      requires pendingResets > 0
      modifies this
      ensures pinInput == "" && !pinError && pendingResets == old(pendingResets) - 1
      ensures showPinInput == old(showPinInput) && holdTimer == old(holdTimer)
    {
      pinInput := "";
      pinError := false;
      pendingResets := pendingResets - 1;
    }

    /** The cancel key: hides the pad and empties the buffer, without any comparison. */
    method Cancel()
      requires showPinInput
      modifies this
      ensures !showPinInput && pinInput == ""
      ensures pinError == old(pinError) && holdTimer == old(holdTimer) && pendingResets == old(pendingResets)
    {
      showPinInput := false;
      pinInput := "";
    }
  }

  /** Releasing before the timer fires never reveals the pad. */
  method ShortHoldNeverReveals(pin: string) returns (revealed: bool)
    ensures !revealed
  {
    var c := new ClockDisguise(pin);
    c.PressIn();
    c.PressOut();
    c.HoldTimerFires();
    revealed := c.showPinInput;
  }

  /**
   * A full hold reveals the pad; a wrong PIN of the right length shows the error,
   * which clears after the reset with the pad still open; the right PIN then unlocks.
   */
  method WrongThenRightPin() returns (errorShown: bool, clearedOpen: bool, unlocked: bool)
    ensures errorShown && clearedOpen && unlocked
  {
    var c := new ClockDisguise("1234");
    c.PressIn();
    c.HoldTimerFires();
    var u := c.HandlePinDigit("1");
    u := c.HandlePinDigit("2");
    u := c.HandlePinDigit("3");
    assert c.pinInput == "123" && c.pendingResets == 0 && c.pin == "1234";
    assert ("123" + "5")[3] != "1234"[3];
    u := c.HandlePinDigit("5");
    errorShown := c.pinError && !u;
    c.ErrorResetFires();
    clearedOpen := c.showPinInput && c.pinInput == "" && !c.pinError;
    u := c.HandlePinDigit("1");
    u := c.HandlePinDigit("2");
    u := c.HandlePinDigit("3");
    unlocked := c.HandlePinDigit("4");
  }
}

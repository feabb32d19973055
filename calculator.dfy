/**
 * The calculator disguise: a working four-function calculator that also keeps
 * the raw sequence of keys pressed since the last clear, and unlocks when `=` is
 * pressed and the sequence, with that `=`, contains the PIN followed by `=`.
 *
 * Numbers are JavaScript numbers as `parseFloat` returns them: a value or NaN.
 * `parseFloat` on display text and `String` on a value are parameters of the
 * calculator; floating-point rounding is not modelled (values are reals).
 */
module Calculator {
  import opened Wrappers
  import opened Strings

  datatype Num = Value(r: real) | NaN

  /** The binary operation named by an operator key; division by zero gives 0. */
  function Apply(operation: string, prev: Num, current: Num): (r: Num)
    ensures operation == "÷" && current == Value(0.0) ==> r == Value(0.0)
    ensures operation !in {"+", "-", "×", "÷"} ==> r == Value(0.0)
  {
    if operation == "+" then
      (if prev.NaN? || current.NaN? then NaN else Value(prev.r + current.r))
    else if operation == "-" then
      (if prev.NaN? || current.NaN? then NaN else Value(prev.r - current.r))
    else if operation == "×" then
      (if prev.NaN? || current.NaN? then NaN else Value(prev.r * current.r))
    else if operation == "÷" then
      (if current == Value(0.0) then Value(0.0)
       else if prev.NaN? || current.NaN? then NaN
       else Value(prev.r / current.r))
    else Value(0.0)
  }

  /** `formatDisplay`: the first nine characters of the display, for rendering only. */
  function FormatDisplay(val: string): (shown: string)
    ensures |shown| <= 9
    ensures IsPrefix(shown, val)
    ensures |val| <= 9 ==> shown == val
    ensures |val| > 9 ==> shown == val[..9]
  {
    if |val| > 9 then val[..9] else val
  }

  /** How the keypad routes a button: number keys to `handleNumber`, the rest to `handleOperation`. */
  datatype KeyKind = NumKey | FuncKey | OpKey

  datatype Button = Button(key: string, kind: KeyKind)

  /** The keypad, row by row. */
  const KEYPAD: seq<Button> := [
    Button("AC", FuncKey), Button("±", FuncKey), Button("%", FuncKey), Button("÷", OpKey),
    Button("7", NumKey), Button("8", NumKey), Button("9", NumKey), Button("×", OpKey),
    Button("4", NumKey), Button("5", NumKey), Button("6", NumKey), Button("-", OpKey),
    Button("1", NumKey), Button("2", NumKey), Button("3", NumKey), Button("+", OpKey),
    Button("0", NumKey), Button(".", NumKey), Button("=", OpKey)
  ]

  /**
   * The decimal point is a number key: the keypad never sends `.` to
   * `handleOperation`, whose decimal-point branch is therefore never taken.
   */
  lemma DecimalPointIsNumberKey()
    ensures forall i :: 0 <= i < |KEYPAD| && KEYPAD[i].key == "." ==> KEYPAD[i].kind == NumKey
    ensures KEYPAD[17] == Button(".", NumKey)
  {
  }

  /** `operation` is set and not the empty string. */
  predicate Pending(operation: Option<string>)
  {
    operation.Some? && operation.value != ""
  }

  class CalculatorDisguise {
    const pin: string
    const parse: string -> Num
    const show: real -> string
    var display: string
    var prevValue: Option<Num>
    var operation: Option<string>
    var waitingForNext: bool
    var inputSequence: string

    /** `String(n)`. */
    function Text(n: Num): string
      reads this
    {
      match n
      case NaN => "NaN"
      case Value(r) => show(r)
    }

    constructor (pin: string, parse: string -> Num, show: real -> string)
      ensures this.pin == pin && this.parse == parse && this.show == show
      ensures display == "0" && prevValue == None && operation == None
      ensures !waitingForNext && inputSequence == ""
    {
      this.pin, this.parse, this.show := pin, parse, show;
      display, prevValue, operation := "0", None, None;
      waitingForNext, inputSequence := false, "";
    }

    /**
     * `handleNumber(num)`: appends the key's label to the key sequence; the display
     * becomes the label when a new operand is awaited or the display is "0", and
     * otherwise gets the label appended. A new operand is no longer awaited.
     */
    method HandleNumber(num: string)
      modifies this
      ensures inputSequence == old(inputSequence) + num
      ensures display == if old(waitingForNext) || old(display) == "0" then num else old(display) + num
      ensures !waitingForNext
      ensures prevValue == old(prevValue) && operation == old(operation)
    {
      inputSequence := inputSequence + num;
      if waitingForNext {
        display := num;
        waitingForNext := false;
      } else {
        display := if display == "0" then num else display + num;
      }
    }

    /**
     * `handleOperation(op)`. `=` unlocks exactly when the key sequence followed by
     * `=` contains the PIN followed by `=`, and then changes nothing; otherwise it
     * records `=` and, with a pending operation, shows its result and clears it.
     * `AC` resets everything; `±` and `%` change only the display; `.` appends a
     * point unless there is one; any other key becomes the pending operation with
     * the displayed value as its left operand.
     */
    method HandleOperation(op: string) returns (unlock: bool)
      modifies this
      ensures unlock <==> op == "=" && Contains(old(inputSequence) + "=", pin + "=")
      ensures unlock ==>
        display == old(display) && prevValue == old(prevValue) && operation == old(operation)
        && waitingForNext == old(waitingForNext) && inputSequence == old(inputSequence)
      ensures op == "=" && !unlock ==>
        inputSequence == old(inputSequence) + "=" && waitingForNext == old(waitingForNext)
        && if old(prevValue).Some? && Pending(old(operation)) then
             display == Text(Apply(old(operation).value, old(prevValue).value, parse(old(display))))
             && prevValue == None && operation == None
           else
             display == old(display) && prevValue == old(prevValue) && operation == old(operation)
      ensures op == "AC" ==>
        display == "0" && prevValue == None && operation == None && !waitingForNext && inputSequence == ""
      ensures op in {"±", "%", "."} ==>
        prevValue == old(prevValue) && operation == old(operation)
        && waitingForNext == old(waitingForNext) && inputSequence == old(inputSequence)
      ensures op == "±" ==> display == Text(match parse(old(display)) case NaN => NaN case Value(r) => Value(-r))
      ensures op == "%" ==> display == Text(match parse(old(display)) case NaN => NaN case Value(r) => Value(r / 100.0))
      ensures op == "." ==> display == if Contains(old(display), ".") then old(display) else old(display) + "."
      ensures op !in {"=", "AC", "±", "%", "."} ==>
        display == old(display) && prevValue == Some(parse(old(display))) && operation == Some(op)
        && waitingForNext && inputSequence == old(inputSequence) + op
    {
      unlock := false;
      var current := parse(display);
      if op == "=" {
        var newSeq := inputSequence + "=";
        if Contains(newSeq, pin + "=") {
          unlock := true;
          return;
        }
        inputSequence := newSeq;
        if prevValue.Some? && Pending(operation) {
          var result := Apply(operation.value, prevValue.value, current);
          display := Text(result);
          prevValue := None;
          operation := None;
        }
        return;
      }
      if op == "AC" {
        display := "0";
        prevValue := None;
        operation := None;
        waitingForNext := false;
        inputSequence := "";
        return;
      }
      if op == "±" {
        display := Text(match parse(display) case NaN => NaN case Value(r) => Value(-r));
        return;
      }
      if op == "%" {
        display := Text(match parse(display) case NaN => NaN case Value(r) => Value(r / 100.0));
        return;
      }
      if op == "." {
        if !Contains(display, ".") {
          display := display + ".";
        }
        return;
      }
      prevValue := Some(current);
      operation := Some(op);
      waitingForNext := true;
      inputSequence := inputSequence + op;
    }

    /**
     * A tap on a keypad button, routed as the keypad routes it: number keys and
     * `.` go to `handleNumber`, `AC`, `±`, `%`, the four operators and `=` to
     * `handleOperation`.
     */
    method Press(b: Button) returns (unlock: bool)
      requires b in KEYPAD
      modifies this
      ensures unlock <==> b.key == "=" && Contains(old(inputSequence) + "=", pin + "=")
      ensures b.kind == NumKey ==>
        inputSequence == old(inputSequence) + b.key
        && display == (if old(waitingForNext) || old(display) == "0" then b.key else old(display) + b.key)
        && !waitingForNext && prevValue == old(prevValue) && operation == old(operation)
      ensures unlock ==>
        display == old(display) && prevValue == old(prevValue) && operation == old(operation)
        && waitingForNext == old(waitingForNext) && inputSequence == old(inputSequence)
      ensures b.key == "=" && !unlock ==>
        inputSequence == old(inputSequence) + "=" && waitingForNext == old(waitingForNext)
        && if old(prevValue).Some? && Pending(old(operation)) then
             display == Text(Apply(old(operation).value, old(prevValue).value, parse(old(display))))
             && prevValue == None && operation == None
           else
             display == old(display) && prevValue == old(prevValue) && operation == old(operation)
      ensures b.key == "AC" ==>
        display == "0" && prevValue == None && operation == None && !waitingForNext && inputSequence == ""
      ensures b.key in {"±", "%"} ==>
        prevValue == old(prevValue) && operation == old(operation)
        && waitingForNext == old(waitingForNext) && inputSequence == old(inputSequence)
      ensures b.key == "±" ==> display == Text(match parse(old(display)) case NaN => NaN case Value(r) => Value(-r))
      ensures b.key == "%" ==> display == Text(match parse(old(display)) case NaN => NaN case Value(r) => Value(r / 100.0))
      ensures b.key in {"÷", "×", "-", "+"} ==>
        display == old(display) && prevValue == Some(parse(old(display))) && operation == Some(b.key)
        && waitingForNext && inputSequence == old(inputSequence) + b.key
    {
      if b.kind == NumKey {
        HandleNumber(b.key);
        unlock := false;
      } else {
        unlock := HandleOperation(b.key);
      }
    }
  }

  /** PIN 1234: the keys 1 2 3 4 = unlock. */
  method PinThenEqualsUnlocks(parse: string -> Num, show: real -> string) returns (unlocked: bool)
    ensures unlocked
  {
    var c := new CalculatorDisguise("1234", parse, show);
    c.HandleNumber("1");
    c.HandleNumber("2");
    c.HandleNumber("3");
    c.HandleNumber("4");
    assert c.inputSequence + "=" == "1234=";
    unlocked := c.HandleOperation("=");
  }

  /** PIN 1234: the keys 5 1 2 3 4 = unlock too (the PIN may follow other keys). */
  method PinAfterOtherKeysUnlocks(parse: string -> Num, show: real -> string) returns (unlocked: bool)
    ensures unlocked
  {
    var c := new CalculatorDisguise("1234", parse, show);
    c.HandleNumber("5");
    c.HandleNumber("1");
    c.HandleNumber("2");
    c.HandleNumber("3");
    c.HandleNumber("4");
    assert c.inputSequence + "=" == "51234=";
    assert OccursAt("51234=", "1234=", 1);
    OccursAtContains("51234=", "1234=", 1);
    unlocked := c.HandleOperation("=");
  }

  /** PIN 1234: the keys 1 2 3 = do not unlock; the display keeps showing 123. */
  method ShortPinDoesNotUnlock(parse: string -> Num, show: real -> string)
    returns (unlocked: bool, shown: string)
    ensures !unlocked && shown == "123"
  {
    var c := new CalculatorDisguise("1234", parse, show);
    c.HandleNumber("1");
    c.HandleNumber("2");
    c.HandleNumber("3");
    assert c.inputSequence + "=" == "123=";
    ContainsLonger("123=", "1234=");
    unlocked := c.HandleOperation("=");
    shown := c.display;
  }

  /** 7 + 3 = shows the text of 10. */
  method SevenPlusThree(parse: string -> Num, show: real -> string) returns (shown: string)
    requires parse("7") == Value(7.0) && parse("3") == Value(3.0)
    ensures shown == show(10.0)
  {
    var c := new CalculatorDisguise("1234", parse, show);
    c.HandleNumber("7");
    var u := c.HandleOperation("+");
    c.HandleNumber("3");
    assert c.inputSequence + "=" == "7+3=";
    ContainsLonger("7+3=", "1234=");
    u := c.HandleOperation("=");
    shown := c.display;
  }

  /** 8 ÷ 0 = shows the text of 0: division by zero is not an error. */
  method DivideByZero(parse: string -> Num, show: real -> string) returns (shown: string)
    requires parse("8") == Value(8.0) && parse("0") == Value(0.0)
    ensures shown == show(0.0)
  {
    var c := new CalculatorDisguise("1234", parse, show);
    c.HandleNumber("8");
    var u := c.HandleOperation("÷");
    c.HandleNumber("0");
    assert c.inputSequence + "=" == "8÷0=";
    ContainsLonger("8÷0=", "1234=");
    u := c.HandleOperation("=");
    shown := c.display;
  }
}

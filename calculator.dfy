/** The disguised emergency calculator: an ordinary four-function keypad
    whose key sequence 9, 1, 1 (or 9, 1, 1 followed by `=`) sends a silent
    SOS from the current position when the user has enabled the feature. */
module EmergencyCalculator {
  import opened Common
  import opened Schema
  import opened JsNumbers
  import TriggerSos

  const SecretCode := "911"
  /** `[...prev, num].slice(-4)`: the key buffer keeps the last four keys. */
  const BufferLength := 4
  const AlertDescription := "Emergency calculator activated"

  predicate IsKey(c: char) {
    IsDigit(c) || c == '.'
  }

  /** What the display shows: text typed on the keypad, or the `String` of
      a computed number (which `parseFloat` reads back as that number). */
  datatype Display = Typed(text: string) | Computed(number: JsNumber)

  ghost predicate WellFormed(d: Display) {
    d.Typed? ==> KeypadText(d.text)
  }

  /** `parseFloat(display)`. */
  function Read(d: Display): JsNumber
    requires WellFormed(d)
  {
    match d
    case Typed(text) => ParseFloat(text)
    case Computed(n) => n
  }

  /** `calculate(first, second, operation)`: dividing by zero shows 0, and an
      unknown operator yields the second operand. */
  function Calculate(first: JsNumber, second: JsNumber, op: char): (r: JsNumber)
    ensures op == '÷' && second == Finite(0.0) ==> r == Finite(0.0)
    ensures op !in {'+', '-', '×', '÷'} ==> r == second
    ensures first.Finite? && second.Finite? && op in {'+', '-', '×'} ==> r.Finite?
    ensures first.Finite? && second.Finite? && op == '÷' ==> r.Finite?
  {
    match op
    case '+' => Add(first, second)
    case '-' => Subtract(first, second)
    case '×' => Multiply(first, second)
    case '÷' => if second != Finite(0.0) then Quotient(first, second) else Finite(0.0)
    case _ => second
  }

  /** Applying an operator and then its inverse to the same finite operand
      gives back the first operand (division only for a non-zero operand). */
  lemma CalculateInverse(first: real, second: real)
    ensures Calculate(Calculate(Finite(first), Finite(second), '+'), Finite(second), '-') == Finite(first)
    ensures second != 0.0 ==>
      Calculate(Calculate(Finite(first), Finite(second), '×'), Finite(second), '÷') == Finite(first)
  {
    InverseOperations(first, second);
  }

  /** `display === '0' ? num : display + num`. */
  function Press(text: string, key: char): string {
    if text == "0" then [key] else text + [key]
  }

  lemma PressKeepsKeypadText(text: string, key: char)
    requires KeypadText(text) && IsKey(key)
    ensures KeypadText(Press(text, key))
  {
  }

  /** The display text after typing `keys` (with no operand pending). */
  function TypeKeys(text: string, keys: string): string
    decreases |keys|
  {
    if keys == [] then text else TypeKeys(Press(text, keys[0]), keys[1..])
  }

  lemma {:induction false} TypeKeysAppends(text: string, keys: string)
    requires text != "0" && text != ""
    ensures TypeKeys(text, keys) == text + keys
    decreases |keys|
  {
    if keys != [] {
      TypeKeysAppends(text + [keys[0]], keys[1..]);
      assert text + [keys[0]] + keys[1..] == text + keys;
    }
  }

  /** Typing the digits of `n` on a cleared display shows `n`, and reading
      the display gives `n` back. */
  lemma TypingANumberShowsIt(n: nat)
    ensures TypeKeys("0", NatToString(n)) == NatToString(n)
    ensures ParseFloat(TypeKeys("0", NatToString(n))) == Finite(n as real)
  {
    var s := NatToString(n);
    if |s| == 1 {
      assert s == [s[0]];
    } else {
      assert Press("0", s[0]) == [s[0]];
      TypeKeysAppends([s[0]], s[1..]);
      assert [s[0]] + s[1..] == s;
    }
    ParseFloatReadsNatToString(n);
  }

  /** The key buffer after one more key. */
  function NextCode(code: seq<char>, key: char): (r: seq<char>)
    ensures |r| == if |code| + 1 < BufferLength then |code| + 1 else BufferLength
    ensures |code| < BufferLength ==> r == code + [key]
  {
    var c := code + [key];
    if |c| > BufferLength then c[|c| - BufferLength..] else c
  }

  /** A number key completes the code exactly when the buffer held 9, 1. */
  lemma NumberKeyCompletesCode(code: seq<char>, key: char)
    requires |code| <= BufferLength
    ensures NextCode(code, key) == SecretCode <==> code == "91" && key == '1'
  {
    if NextCode(code, key) == SecretCode {
      assert |code| == 2 && NextCode(code, key) == code + [key];
      assert code == (code + [key])[..2] == SecretCode[..2];
    }
    if code == "91" && key == '1' {
      assert NextCode(code, key) == code + [key];
    }
  }

  /** The key buffer after `keys`, starting empty. */
  function CodeAfter(keys: seq<char>): seq<char> {
    if keys == [] then [] else NextCode(CodeAfter(keys[..|keys| - 1]), keys[|keys| - 1])
  }

  /** The last (at most) four keys. */
  function LastKeys(keys: seq<char>): (r: seq<char>)
    ensures |r| <= BufferLength
  {
    if |keys| <= BufferLength then keys else keys[|keys| - BufferLength..]
  }

  lemma {:induction false} CodeAfterIsLastKeys(keys: seq<char>)
    ensures CodeAfter(keys) == LastKeys(keys)
  {
    if keys != [] {
      var init, key := keys[..|keys| - 1], keys[|keys| - 1];
      CodeAfterIsLastKeys(init);
      assert keys == init + [key];
      if |keys| > BufferLength {
        var c := LastKeys(init) + [key];
        assert LastKeys(init) == init[|init| - BufferLength..];
        assert c[1..] == keys[|keys| - BufferLength..];
      }
    }
  }

  /** Since the buffer holds four keys and the code has three, the code
      matches only when it was the first three keys after a reset. */
  lemma CodeMatchesOnlyAsFirstKeys(keys: seq<char>)
    ensures CodeAfter(keys) == SecretCode <==> keys == SecretCode
  {
    CodeAfterIsLastKeys(keys);
  }

  /** The silent SOS the calculator sends. */
  function CalculatorRequest(lat: real, lng: real): (r: TriggerSos.SosRequest)
    ensures r.kind == Some(Sos) && r.latitude == Some(lat) && r.longitude == Some(lng)
    ensures r.isSilentAlert == Some(true) && r.triggeredByCalculator == Some(true)
    ensures r.description == Some(AlertDescription) && r.emergencyType == Some("other")
    ensures r.triggeredByShake.None? && r.voiceNoteUrl.None? && r.autoContact.None?
  {
    TriggerSos.SosRequest(Some(Sos), Some(lat), Some(lng), Some(AlertDescription), Some("other"),
                          None, Some(true), None, Some(true), None)
  }

  class Calculator {
    var display: Display
    var previousValue: Option<JsNumber>
    var operation: Option<char>
    var waitingForOperand: bool
    var secretCode: seq<char>
    var enabled: bool
    /** Secret triggers whose location request has not settled yet. */
    var pendingTriggers: nat
    var sent: seq<TriggerSos.SosRequest>
    var closed: bool

    ghost predicate Valid()
      reads this
    {
      WellFormed(display) && (display.Computed? ==> waitingForOperand) && |secretCode| <= BufferLength
    }

    constructor ()
      ensures Valid()
      ensures display == Typed("0") && previousValue.None? && operation.None? && !waitingForOperand
      ensures secretCode == [] && !enabled && pendingTriggers == 0 && sent == [] && !closed
    {
      display, previousValue, operation, waitingForOperand := Typed("0"), None, None, false;
      secretCode, enabled, pendingTriggers, sent, closed := [], false, 0, [], false;
    }

    /** The mount effect: `emergency_calculator_enabled || false` of the
        signed-in user's profile. */
    method LoadSetting(signedIn: bool, flag: Option<bool>)
      modifies this`enabled
      ensures enabled == if signedIn then FlagOr(flag) else old(enabled)
    {
      if signedIn {
        enabled := FlagOr(flag);
      }
    }

    /** `handleSecretTrigger` up to its location request: disabled, it does
        nothing. */
    method SecretTrigger()
      modifies this`pendingTriggers
      ensures pendingTriggers == old(pendingTriggers) + if enabled then 1 else 0
    {
      if enabled {
        pendingTriggers := pendingTriggers + 1;
      }
    }

    /** `handleNumber`. */
    method NumberKey(key: char)
      requires Valid() && IsKey(key)
      modifies this
      ensures Valid()
      ensures old(waitingForOperand) ==> display == Typed([key])
      ensures !old(waitingForOperand) ==> display == Typed(Press(old(display).text, key))
      ensures !waitingForOperand && secretCode == NextCode(old(secretCode), key)
      ensures pendingTriggers == old(pendingTriggers) + if enabled && secretCode == SecretCode then 1 else 0
      ensures previousValue == old(previousValue) && operation == old(operation)
      ensures enabled == old(enabled) && sent == old(sent) && closed == old(closed)
    {
      if waitingForOperand {
        display := Typed([key]);
        waitingForOperand := false;
      } else {
        PressKeepsKeypadText(display.text, key);
        display := Typed(Press(display.text, key));
      }
      secretCode := NextCode(secretCode, key);
      if secretCode == SecretCode {
        SecretTrigger();
      }
    }

    /** `handleOperation`: the first operator stores the operand; a later
        one folds the pending operation, treating a falsy stored value as 0. */
    method OperationKey(op: char)
      requires Valid()
      modifies this`display, this`previousValue, this`operation, this`waitingForOperand
      ensures Valid() && waitingForOperand && operation == Some(op)
      ensures old(previousValue).None? ==>
        previousValue == Some(Read(old(display))) && display == old(display)
      ensures old(previousValue).Some? && old(operation).Some? ==>
        var v := Calculate(if Truthy(old(previousValue).value) then old(previousValue).value else Finite(0.0),
                           Read(old(display)), old(operation).value);
        display == Computed(v) && previousValue == Some(v)
      ensures old(previousValue).Some? && old(operation).None? ==>
        previousValue == old(previousValue) && display == old(display)
    {
      var input := Read(display);
      if previousValue.None? {
        previousValue := Some(input);
      } else if operation.Some? {
        var current := if Truthy(previousValue.value) then previousValue.value else Finite(0.0);
        var v := Calculate(current, input, operation.value);
        display := Computed(v);
        previousValue := Some(v);
      }
      waitingForOperand := true;
      operation := Some(op);
    }

    /** `handleEquals`: completes a pending operation with the stored value
        as it is, fires the secret trigger when the buffer holds 9, 1, 1, and
        always empties the buffer. */
    method EqualsKey()
      requires Valid()
      modifies this
      ensures Valid() && secretCode == []
      ensures old(previousValue).Some? && old(operation).Some? ==>
        display == Computed(Calculate(old(previousValue).value, Read(old(display)), old(operation).value)) &&
        previousValue.None? && operation.None? && waitingForOperand
      ensures !(old(previousValue).Some? && old(operation).Some?) ==>
        display == old(display) && previousValue == old(previousValue) && operation == old(operation) &&
        waitingForOperand == old(waitingForOperand)
      ensures pendingTriggers == old(pendingTriggers) + if enabled && old(secretCode) == SecretCode then 1 else 0
      ensures enabled == old(enabled) && sent == old(sent) && closed == old(closed)
    {
      var input := Read(display);
      if previousValue.Some? && operation.Some? {
        display := Computed(Calculate(previousValue.value, input, operation.value));
        previousValue := None;
        operation := None;
        waitingForOperand := true;
      }
      if secretCode == SecretCode {
        SecretTrigger();
      }
      secretCode := [];
    }

    /** `handleClear`. */
    method ClearKey()
      modifies this`display, this`previousValue, this`operation, this`waitingForOperand, this`secretCode
      ensures Valid()
      ensures display == Typed("0") && previousValue.None? && operation.None? && !waitingForOperand
      ensures secretCode == []
    {
      display, previousValue, operation, waitingForOperand := Typed("0"), None, None, false;
      secretCode := [];
    }

    /** The rest of `handleSecretTrigger`: without a position nothing is
        sent; with one the silent SOS is posted and, if it succeeds, the
        calculator is cleared and closed. */
    method SecretTriggerSettles(position: Option<(real, real)>, sendFails: bool)
      requires Valid() && pendingTriggers > 0
      modifies this
      ensures Valid() && pendingTriggers == old(pendingTriggers) - 1 && enabled == old(enabled)
      ensures position.None? || sendFails ==>
        closed == old(closed) && display == old(display) && secretCode == old(secretCode) &&
        previousValue == old(previousValue) && operation == old(operation) && waitingForOperand == old(waitingForOperand)
      ensures position.None? ==> sent == old(sent)
      ensures position.Some? ==> sent == old(sent) + [CalculatorRequest(position.value.0, position.value.1)]
      ensures position.Some? && !sendFails ==>
        closed && display == Typed("0") && secretCode == [] &&
        previousValue.None? && operation.None? && !waitingForOperand
    {
      pendingTriggers := pendingTriggers - 1;
      if position.None? {
        return;
      }
      sent := sent + [CalculatorRequest(position.value.0, position.value.1)];
      if sendFails {
        return;
      }
      ClearKey();
      closed := true;
    }
  }

  /** Typing 9, 1, 1 on an empty buffer and then `=` fires the secret
      trigger twice: once on the third number key, once more on `=`. */
  method SecretCodeThenEquals(c: Calculator)
    requires c.Valid() && c.secretCode == []
    modifies c
    ensures c.Valid() && c.secretCode == []
    ensures c.pendingTriggers == old(c.pendingTriggers) + if c.enabled then 2 else 0
  {
    c.NumberKey('9');
    c.NumberKey('1');
    c.NumberKey('1');
    assert c.secretCode == SecretCode;
    c.EqualsKey();
  }
}

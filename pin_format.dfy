/**
 * `Controller.check_pin_format`: the setup code must match `^\d\d\d-\d\d-\d\d\d$`
 * under Python's `re.match`, where `$` also matches right before one final
 * newline. Digits are ASCII digits.
 */
module PinFormat {
  import opened Common
  import opened Exceptions
  import opened Text

  /** One element of a regular expression without repetition. */
  datatype Atom = Digit | Literal(c: char)

  predicate AtomMatches(a: Atom, c: char) {
    match a
    case Digit => IsDecimalDigit(c)
    case Literal(l) => c == l
  }

  /** `\d\d\d-\d\d-\d\d\d` */
  const PinPattern: seq<Atom> :=
    [Digit, Digit, Digit, Literal('-'), Digit, Digit, Literal('-'), Digit, Digit, Digit]

  const PinMessage: string :=
    "The pin must be of the following XXX-XX-XXX where X is a digit between 0 and 9."

  /**
   * `re.match("^" + p + "$", s)`: the atoms match the first |p| characters one
   * by one, and what is left is empty or a single newline.
   */
  function MatchesAnchored(p: seq<Atom>, s: string): (b: bool)
    ensures b <==>
      && (|s| == |p| || (|s| == |p| + 1 && s[|p|] == '\n'))
      && forall i :: 0 <= i < |p| ==> AtomMatches(p[i], s[i])
  {
    if p == [] then s == [] || s == "\n"
    else s != [] && AtomMatches(p[0], s[0]) && MatchesAnchored(p[1..], s[1..])
  }

  /** The accepted pins, position by position: `ddd-dd-ddd`, optionally followed by one newline. */
  predicate IsPin(pin: string) {
    && (|pin| == 10 || (|pin| == 11 && pin[10] == '\n'))
    && IsDecimalDigit(pin[0]) && IsDecimalDigit(pin[1]) && IsDecimalDigit(pin[2])
    && pin[3] == '-'
    && IsDecimalDigit(pin[4]) && IsDecimalDigit(pin[5])
    && pin[6] == '-'
    && IsDecimalDigit(pin[7]) && IsDecimalDigit(pin[8]) && IsDecimalDigit(pin[9])
  }

  /** `check_pin_format`: passes exactly the pins of shape `XXX-XX-XXX`, otherwise raises MalformedPinError. */
  function CheckPinFormat(pin: string): (r: Outcome<Error>)
    ensures r.Pass? <==> IsPin(pin)
    ensures r.Fail? ==> r.error == MalformedPin(PinMessage)
  {
    if MatchesAnchored(PinPattern, pin) then Pass else Fail(MalformedPin(PinMessage))
  }

  /** Because of `$`, one trailing newline is accepted, and nothing else may follow. */
  lemma TrailingNewline(pin: string)
    requires |pin| == 10
    ensures CheckPinFormat(pin + "\n") == CheckPinFormat(pin)
    ensures CheckPinFormat(pin + "\n\n").Fail?
  {
    assert (pin + "\n")[..10] == pin;
  }

  /** The concrete pin that shows the trailing newline getting through. */
  lemma NewlinePinAccepted()
    ensures CheckPinFormat("123-45-678\n") == Pass
  {
    assert IsPin("123-45-678\n");
  }

  /**
   * `re.fullmatch(p, s)`: the atoms match all of `s`, one character each,
   * and nothing is left over.
   */
  function MatchesExactly(p: seq<Atom>, s: string): (b: bool)
    ensures b <==> |s| == |p| && forall i :: 0 <= i < |p| ==> AtomMatches(p[i], s[i])
  {
    if p == [] then s == []
    else s != [] && AtomMatches(p[0], s[0]) && MatchesExactly(p[1..], s[1..])
  }

  /** The pin check as its message describes it: exactly `XXX-XX-XXX`, nothing after it. */
  function CheckPinFormatStrict(pin: string): (r: Outcome<Error>)
    ensures r.Pass? <==> |pin| == 10 && IsPin(pin)
    ensures r.Fail? ==> r.error == MalformedPin(PinMessage)
  {
    if MatchesExactly(PinPattern, pin) then Pass else Fail(MalformedPin(PinMessage))
  }

  /** The strict check agrees with `check_pin_format` except on the trailing newline, which it refuses. */
  lemma StrictDiffersOnlyOnNewline(pin: string)
    ensures CheckPinFormatStrict(pin).Pass? ==> CheckPinFormat(pin).Pass?
    ensures CheckPinFormat(pin).Pass? && CheckPinFormatStrict(pin).Fail? ==>
      |pin| == 11 && pin[10] == '\n' && CheckPinFormatStrict(pin[..10]).Pass?
  {
    if CheckPinFormat(pin).Pass? && |pin| == 11 {
      assert IsPin(pin[..10]);
    }
  }
}

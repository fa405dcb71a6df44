/**
 * The PIN-entry page (src/pages/pin.js): the 4-digit format check, the guard run
 * when "Continue" is clicked, and the link that carries the identifier and the PIN
 * on to the recording page.
 */
module Pin {
  import opened Wrappers

  const PinFormatError: string := "❌ PIN must be exactly 4 digits."
  const RecordingPath: string := "/recording?uuid="
  const PinParam: string := "&pin="

  /** What `\d` matches in a JavaScript regular expression without the `u` flag. */
  predicate IsAsciiDigit(c: char) {
    '0' <= c <= '9'
  }

  /**
   * The anchored pattern `^\d{n}$`, matched from the left one digit at a time:
   * the whole input must be consumed by exactly `n` digits (without the `m` flag,
   * `$` matches only at the end of the input).
   */
  function MatchesDigits(s: string, n: nat): (ok: bool)
    decreases n
  {
    if n == 0 then s == []
    else s != [] && IsAsciiDigit(s[0]) && MatchesDigits(s[1..], n - 1)
  }

  /** `validatePIN`: `/^\d{4}$/.test(pin)`. */
  function ValidatePin(pin: string): (ok: bool) {
    MatchesDigits(pin, 4)
  }

  lemma {:induction false} MatchesDigitsIff(s: string, n: nat)
    ensures MatchesDigits(s, n) <==> |s| == n && forall i :: 0 <= i < |s| ==> IsAsciiDigit(s[i])
    decreases n
  {
    if n > 0 && s != [] {
      MatchesDigitsIff(s[1..], n - 1);
      if |s| == n && forall i :: 0 <= i < |s| ==> IsAsciiDigit(s[i]) {
        assert forall i :: 0 <= i < |s[1..]| ==> s[1..][i] == s[i + 1];
      }
      if MatchesDigits(s, n) {
        forall i | 0 <= i < |s| ensures IsAsciiDigit(s[i]) {
          if i > 0 { assert s[i] == s[1..][i - 1]; }
        }
      }
    }
  }

  /** A PIN is accepted exactly when it is four characters long and every one is an ASCII digit. */
  lemma ValidatePinIff(pin: string)
    ensures ValidatePin(pin) <==> |pin| == 4 && forall i :: 0 <= i < |pin| ==> IsAsciiDigit(pin[i])
  {
    MatchesDigitsIff(pin, 4);
  }

  /** How a template literal renders the `uuid` query value: an absent one becomes "undefined". */
  function QueryText(v: Option<string>): (text: string) {
    match v
    case None => "undefined"
    case Some(s) => s
  }

  /**
   * The Continue link's target, `/recording?uuid=${uuid}&pin=${pin}`: the two values
   * are pasted in without any URL encoding.
   */
  function ContinueHref(uuid: Option<string>, pin: string): (href: string) {
    RecordingPath + QueryText(uuid) + PinParam + pin
  }

  /**
   * The link starts with the recording path, holds the identifier right after it and
   * ends with the PIN parameter; when the identifier is missing the literal text
   * "undefined" is sent in its place.
   */
  lemma ContinueHrefLayout(uuid: Option<string>, pin: string)
    ensures var href := ContinueHref(uuid, pin);
      var u := QueryText(uuid);
      href == RecordingPath + u + PinParam + pin
      && |href| == |RecordingPath| + |u| + |PinParam| + |pin|
      && href[..|RecordingPath|] == RecordingPath
      && href[|RecordingPath|..|RecordingPath| + |u|] == u
      && href[|href| - |pin| - |PinParam|..|href| - |pin|] == PinParam
      && href[|href| - |pin|..] == pin
      && (uuid.None? ==> u == "undefined")
  {
  }

  /** For a fixed identifier, distinct PINs give distinct links. */
  lemma ContinueHrefInjective(uuid: Option<string>, pin1: string, pin2: string)
    requires ContinueHref(uuid, pin1) == ContinueHref(uuid, pin2)
    ensures pin1 == pin2
  {
    ContinueHrefLayout(uuid, pin1);
    ContinueHrefLayout(uuid, pin2);
  }

  /** Concrete inputs: the accepted form and the three ways of missing it. */
  lemma ValidatePinExamples()
    ensures ValidatePin("1234") && ValidatePin("0000")
    ensures !ValidatePin("123") && !ValidatePin("12345") && !ValidatePin("12a4") && !ValidatePin("")
  {
  }

  /** The state of the PIN page: the `uuid` query value it was rendered with and its two state hooks. */
  class PinPage {
    const uuid: Option<string>
    var pin: string
    var error: string

    constructor (uuid: Option<string>)
      ensures this.uuid == uuid && pin == "" && error == ""
    {
      this.uuid := uuid;
      pin := "";
      error := "";
    }

    /** The input's `onChange`: the raw value is stored unfiltered and the error is left as it was. */
    method EditPin(value: string)
      modifies this
      ensures pin == value && error == old(error)
    {
      pin := value;
    }

    /**
     * Clicking Continue runs `handleNext`: an invalid PIN sets the error and cancels the
     * navigation (`None`); a valid one clears the error and the link is followed.
     */
    method HandleNext() returns (target: Option<string>)
      modifies this
      ensures pin == old(pin)
      ensures !ValidatePin(pin) ==> error == PinFormatError && target == None
      ensures ValidatePin(pin) ==> error == "" && target == Some(ContinueHref(uuid, pin))
    {
      if !ValidatePin(pin) {
        error := PinFormatError;
        target := None;
      } else {
        error := "";
        target := Some(ContinueHref(uuid, pin));
      }
    }
  }
}

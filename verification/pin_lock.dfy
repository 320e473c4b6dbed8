/** The PIN lock overlay: a buffer of at most six digits, verified against the stored PIN as
    soon as the sixth digit is entered. */
module PinLock {
  import opened Common
  import opened Text
  import opened Auth

  /** The keys of the numpad. */
  type Digit = c: char | '0' <= c <= '9' witness '0'

  datatype Key = DigitKey(d: Digit) | DeleteKey

  /** The overlay's local state: the digits entered so far and the error line. */
  datatype Pad = Pad(pin: string, error: string)

  const EmptyPad := Pad("", "")

  const WrongPinMessage := "PIN Salah. Coba lagi."

  /** The buffer is a PIN being typed: at most six digits. */
  predicate WellFormed(p: Pad)
  {
    |p.pin| <= 6 && forall i :: 0 <= i < |p.pin| ==> IsDigit(p.pin[i])
  }

  /** `handlePress`: appends the digit and clears the error when fewer than six are entered;
      otherwise nothing happens. */
  function Press(p: Pad, d: Digit): (r: Pad)
    ensures |p.pin| < 6 ==> r.pin == p.pin + [d] && r.error == ""
    ensures |p.pin| >= 6 ==> r == p
    ensures WellFormed(p) ==> WellFormed(r)
  {
    if |p.pin| < 6 then Pad(p.pin + [d], "") else p
  }

  /** `handleDelete`: drops the last digit (nothing to drop on an empty buffer) and clears the
      error. */
  function Delete(p: Pad): (r: Pad)
    ensures |p.pin| > 0 ==> r.pin + [p.pin[|p.pin| - 1]] == p.pin
    ensures |p.pin| == 0 ==> r.pin == ""
    ensures r.error == ""
    ensures WellFormed(p) ==> WellFormed(r)
  {
    Pad(if |p.pin| > 0 then p.pin[..|p.pin| - 1] else "", "")
  }

  /** The overlay is shown iff the user is registered and not authenticated. */
  predicate Visible(auth: AuthState)
  {
    auth.isRegistered && !auth.isAuthenticated
  }

  /** The overlay together with the auth store it drives. */
  datatype Screen = Screen(pad: Pad, auth: AuthState)

  /** `handleVerify` as written: on a wrong PIN the buffer empties and the error is set; on
      the right one the user is logged in and the buffer keeps the six digits. */
  function VerifyAsWritten(pad: Pad, auth: AuthState, secure: Secure): (r: Screen)
    ensures LoginWithPin(auth, secure, pad.pin, false).1 ==> r.auth.isAuthenticated && r.pad == pad
    ensures !LoginWithPin(auth, secure, pad.pin, false).1 ==>
              r.auth.isAuthenticated == auth.isAuthenticated && r.pad == Pad("", WrongPinMessage)
  {
    var login := LoginWithPin(auth, secure, pad.pin, false);
    if login.1 then Screen(pad, login.0) else Screen(Pad("", WrongPinMessage), login.0)
  }

  /** `handleVerify` corrected: the buffer empties whatever the outcome, so the next lock
      starts from an empty pad. */
  function Verify(pad: Pad, auth: AuthState, secure: Secure): (r: Screen)
    ensures r.pad.pin == ""
    ensures r.auth.isAuthenticated <==> auth.isAuthenticated || (PinKey in secure && secure[PinKey] == pad.pin)
    ensures r.pad.error == (if PinKey in secure && secure[PinKey] == pad.pin then "" else WrongPinMessage)
  {
    var login := LoginWithPin(auth, secure, pad.pin, false);
    if login.1 then Screen(EmptyPad, login.0) else Screen(Pad("", WrongPinMessage), login.0)
  }

  /** One key press on the overlay. A hidden overlay takes no keys; on a visible one Delete
      edits the buffer, a digit is pressed, and a digit on a five-digit buffer makes the
      sixth digit and triggers verification (the effect watching the buffer). `corrected` picks
      the verification step. */
  function StepWith(s: Screen, k: Key, secure: Secure, corrected: bool): (r: Screen)
    ensures !Visible(s.auth) ==> r == s
    ensures s.auth.isAuthenticated ==> r == s
    ensures WellFormed(s.pad) ==> WellFormed(r.pad)
    ensures r.auth.isRegistered == s.auth.isRegistered
    ensures Visible(s.auth) && k.DeleteKey? ==> r == s.(pad := Delete(s.pad))
    ensures Visible(s.auth) && k.DigitKey? && |s.pad.pin| != 5 ==>
              r == s.(pad := Press(s.pad, k.d))
    ensures Visible(s.auth) && k.DigitKey? && |s.pad.pin| == 5 ==>
              r == (if corrected then Verify(Press(s.pad, k.d), s.auth, secure)
                    else VerifyAsWritten(Press(s.pad, k.d), s.auth, secure))
  {
    if !Visible(s.auth) then s
    else match k
      case DeleteKey => s.(pad := Delete(s.pad))
      case DigitKey(d) =>
        var p := Press(s.pad, d);
        if |s.pad.pin| < 6 && |p.pin| == 6 then
          (if corrected then Verify(p, s.auth, secure) else VerifyAsWritten(p, s.auth, secure))
        else s.(pad := p)
  }

  function RunWith(s: Screen, keys: seq<Key>, secure: Secure, corrected: bool): Screen
    decreases |keys|
  {
    if |keys| == 0 then s else RunWith(StepWith(s, keys[0], secure, corrected), keys[1..], secure, corrected)
  }

  /** Whatever keys are pressed, the buffer never holds more than six characters, all digits. */
  lemma {:induction false} PadStaysWellFormed(s: Screen, keys: seq<Key>, secure: Secure, corrected: bool)
    requires WellFormed(s.pad)
    ensures WellFormed(RunWith(s, keys, secure, corrected).pad)
    decreases |keys|
  {
    if |keys| > 0 {
      PadStaysWellFormed(StepWith(s, keys[0], secure, corrected), keys[1..], secure, corrected);
    }
  }

  /** Six digits typed on an empty, visible pad are checked against the stored PIN. */
  lemma SixDigitsVerify(pad: Pad, auth: AuthState, secure: Secure, d: Digit)
    requires Visible(auth) && |pad.pin| == 5
    ensures var r := StepWith(Screen(pad, auth), DigitKey(d), secure, true);
            r.auth.isAuthenticated <==> PinKey in secure && secure[PinKey] == pad.pin + [d]
  {
  }

  function DigitPresses(keys: seq<Key>): nat
  {
    if |keys| == 0 then 0 else (if keys[0].DigitKey? then 1 else 0) + DigitPresses(keys[1..])
  }

  /** With the corrected step, unlocking takes as many digit presses as the buffer lacks of
      six: from an empty pad, at least six. */
  lemma {:induction false} UnlockNeedsDigits(s: Screen, keys: seq<Key>, secure: Secure)
    requires !s.auth.isAuthenticated
    requires RunWith(s, keys, secure, true).auth.isAuthenticated
    ensures DigitPresses(keys) + |s.pad.pin| >= 6
    decreases |keys|
  {
    if |keys| > 0 {
      var next := StepWith(s, keys[0], secure, true);
      if !next.auth.isAuthenticated {
        UnlockNeedsDigits(next, keys[1..], secure);
      }
    } else {
      assert false;
    }
  }

  /** With the corrected step, the pad is empty whenever the user is logged in through it, so
      a later lock starts from an empty buffer. */
  lemma UnlockLeavesEmptyPad(s: Screen, k: Key, secure: Secure)
    requires Visible(s.auth)
    requires StepWith(s, k, secure, true).auth.isAuthenticated
    ensures StepWith(s, k, secure, true).pad == EmptyPad
  {
  }

  const Stored: Secure := map[PinKey := "123456"]

  const Registered := AuthState(true, false, false, Some("0812"), Some("Ani"))

  /** As written: after unlocking with 123456 and being locked again, the overlay keeps the
      six digits; Delete followed by the last digit unlocks, with a single digit pressed. */
  lemma StaleBufferUnlocks()
    ensures var unlocked := VerifyAsWritten(Pad("123456", ""), Registered, Stored);
            var locked := Screen(unlocked.pad, LockApp(unlocked.auth));
            && unlocked.auth.isAuthenticated
            && locked.pad.pin == "123456" && Visible(locked.auth)
            && StepWith(locked, DigitKey('1'), Stored, false) == locked
            && RunWith(locked, [DeleteKey, DigitKey('6')], Stored, false).auth.isAuthenticated
            && DigitPresses([DeleteKey, DigitKey('6')]) == 1
  {
    var unlocked := VerifyAsWritten(Pad("123456", ""), Registered, Stored);
    var locked := Screen(unlocked.pad, LockApp(unlocked.auth));
    var deleted := StepWith(locked, DeleteKey, Stored, false);
    assert deleted.pad.pin == "12345";
    var again := StepWith(deleted, DigitKey('6'), Stored, false);
    assert again.auth.isAuthenticated;
    assert [DeleteKey, DigitKey('6')][1..] == [DigitKey('6')];
  }

  /** Corrected: the same unlock-then-lock leaves an empty pad, and unlocking again takes six
      digit presses. */
  lemma RelockNeedsSixDigits(keys: seq<Key>)
    ensures var unlocked := Verify(Pad("123456", ""), Registered, Stored);
            var locked := Screen(unlocked.pad, LockApp(unlocked.auth));
            && unlocked.auth.isAuthenticated
            && locked.pad.pin == ""
            && (RunWith(locked, keys, Stored, true).auth.isAuthenticated ==> DigitPresses(keys) >= 6)
  {
    var unlocked := Verify(Pad("123456", ""), Registered, Stored);
    var locked := Screen(unlocked.pad, LockApp(unlocked.auth));
    if RunWith(locked, keys, Stored, true).auth.isAuthenticated {
      UnlockNeedsDigits(locked, keys, Stored);
    }
  }
}

/**
 * The one-time-password login form (components/auth/login-form.jsx): its phase, the
 * entered and issued codes, the two-minute countdown and the session check. The
 * network request that mails the code is split at the point where it waits: sending
 * returns the generated code, and a second method applies the answer. The toasts, the
 * focus call and the redirect itself are not part of this model; where the form
 * redirects, a method says so in its result.
 */
module LoginForm {
  import opened Wrappers
  import opened Strings
  import opened Json
  import Auth

  /** `initialCountdown`, in seconds. */
  const InitialCountdown: nat := 120

  /** The `phase` state: "idle", "pending", "sent" or "verifying". */
  datatype Phase = Idle | Pending | Sent | Verifying

  /** Which check `handleVerifyOtp` stops at, in the order it makes them. */
  datatype VerifyOutcome =
    | NoOtpIssued    // "Request a new OTP first"
    | IncompleteOtp  // "Enter the 6 digit OTP"
    | OtpExpired     // "OTP expired. Request a new code."
    | OtpMismatch    // "Invalid OTP. Please try again."
    | Verified       // the session is persisted and the form leaves for the dashboard

  /**
   * The checks of `handleVerifyOtp` on the issued code, the entered code and the
   * seconds left: an issued code of six characters, six characters entered once
   * trimmed, time left, and the trimmed entry equal to the issued code.
   */
  function CheckOtp(issued: string, entered: string, remaining: int): (r: VerifyOutcome)
    ensures r == NoOtpIssued <==> |issued| != 6
    ensures r == IncompleteOtp <==> |issued| == 6 && |Trim(entered)| != 6
    ensures r == OtpExpired <==> |issued| == 6 && |Trim(entered)| == 6 && remaining == 0
    ensures r == OtpMismatch <==> |issued| == 6 && |Trim(entered)| == 6 && remaining != 0 && Trim(entered) != issued
    ensures r == Verified <==> |issued| == 6 && remaining != 0 && Trim(entered) == issued
  {
    if |issued| != 6 then NoOtpIssued
    else if |Trim(entered)| != 6 then IncompleteOtp
    else if remaining == 0 then OtpExpired
    else if Trim(entered) != issued then OtpMismatch
    else Verified
  }

  /**
   * Whatever is typed around the code, only the issued code itself verifies: a code
   * with blanks around it verifies exactly when the issued code has no blanks at its
   * ends, and no entry verifies once the countdown is over.
   */
  lemma OnlyIssuedCodeVerifies(issued: string, entered: string, remaining: int)
    requires CheckOtp(issued, entered, remaining) == Verified
    ensures |issued| == 6 && IsTrimmed(issued) && remaining != 0
    ensures CheckOtp(issued, issued, remaining) == Verified
  {
    TrimOfTrimmed(entered);
  }

  /**
   * `minutes:seconds` of the countdown, each part `padStart(2, "0")`: the minutes are
   * `Math.floor(remaining / 60)` and the seconds `remaining % 60`.
   */
  function FormattedCountdown(remaining: nat): (r: string)
    ensures |r| >= 5 && r[|r| - 3] == ':'
    ensures remaining < 6000 ==> |r| == 5
  {
    PaddedWidth(remaining / 60);
    TwoDigits(remaining % 60);
    Pad2(NatToString(remaining / 60)) + ":" + Pad2(NatToString(remaining % 60))
  }

  /** Padding gives at least two characters, and exactly two below 100. */
  lemma PaddedWidth(n: nat)
    ensures |Pad2(NatToString(n))| >= 2
    ensures n < 100 ==> |Pad2(NatToString(n))| == 2
  {
    if n < 100 {
      TwoDigits(n);
    }
  }

  /** A number below 100 prints as two digits after padding, which read back as the number. */
  lemma TwoDigits(n: nat)
    requires n < 100
    ensures |Pad2(NatToString(n))| == 2 && AllDigits(Pad2(NatToString(n)))
    ensures DigitsValue(Pad2(NatToString(n))) == n
  {
    var s := NatToString(n);
    DigitsValueOfNat(n);
    if n < 10 {
      assert Pad2(s) == "0" + s;
      assert Pad2(s)[..1] == "0";
    } else {
      assert |NatToString(n / 10)| == 1;
    }
  }

  /**
   * Below 100 minutes the countdown is five characters "mm:ss", the seconds part is
   * below 60, and minutes times 60 plus seconds is the number of seconds left.
   */
  lemma {:induction false} CountdownReadsBack(remaining: nat)
    requires remaining < 6000
    ensures var r := FormattedCountdown(remaining);
      && |r| == 5 && r[2] == ':'
      && AllDigits(r[..2]) && AllDigits(r[3..])
      && DigitsValue(r[3..]) < 60
      && DigitsValue(r[..2]) * 60 + DigitsValue(r[3..]) == remaining
  {
    var m, s := Pad2(NatToString(remaining / 60)), Pad2(NatToString(remaining % 60));
    TwoDigits(remaining / 60);
    TwoDigits(remaining % 60);
    var r := FormattedCountdown(remaining);
    assert r == m + ":" + s;
    assert r[..2] == m;
    assert r[3..] == s;
  }

  /** The expiry line is shown (the countdown is not "00:00") exactly while time is left. */
  lemma {:induction false} ExpiryShownWhileTimeLeft(remaining: nat)
    requires remaining < 6000
    ensures FormattedCountdown(remaining) != "00:00" <==> remaining != 0
  {
    CountdownReadsBack(remaining);
    var r := FormattedCountdown(remaining);
    if remaining == 0 {
      assert NatToString(0) == "0";
      assert r == "00:00";
    } else {
      assert "00"[..1] == "0" && "0"[..0] == "";
      assert DigitsValue("00") == 0;
      assert r[..2] != "00" || r[3..] != "00";
    }
  }

  /**
   * The verify button (shown while resending is not offered, enabled when not loading and
   * six characters are entered) and the Enter key lead to the same checks, and with the
   * code inputs on screen those can only end in a mismatch or in verification.
   */
  lemma UiVerifyReachesCode(issued: string, entered: string, remaining: int)
    requires |issued| == 6 && remaining != 0
    requires |Trim(entered)| == 6
    ensures CheckOtp(issued, entered, remaining) in {OtpMismatch, Verified}
    ensures CheckOtp(issued, entered, remaining) == Verified <==> Trim(entered) == issued
  {
  }

  class LoginForm {
    var phase: Phase
    var otpValue: string
    var issuedOtp: string
    var remaining: int
    var checkingSession: bool

    /**
     * The countdown stays within two minutes and never goes below zero, the issued code
     * is empty or six digits, and a form that has sent or is verifying holds a code.
     */
    predicate Valid()
      reads this
    {
      && 0 <= remaining <= InitialCountdown
      && (issuedOtp == [] || (|issuedOtp| == 6 && AllDigits(issuedOtp)))
      && (phase == Sent || phase == Verifying ==> |issuedOtp| == 6)
    }

    constructor()
      ensures Valid()
      ensures phase == Idle && otpValue == [] && issuedOtp == []
      ensures remaining == InitialCountdown && checkingSession
    {
      phase := Idle;
      otpValue := [];
      issuedOtp := [];
      remaining := InitialCountdown;
      checkingSession := true;
    }

    /** `isLoading`. */
    predicate IsLoading()
      reads this
    {
      phase == Pending || phase == Verifying
    }

    /** `showOtpInputs`: the code inputs replace the send button once a code is issued. */
    predicate ShowOtpInputs()
      reads this
    {
      |issuedOtp| == 6
    }

    /** `allowResend`. */
    predicate AllowResend()
      reads this
    {
      ShowOtpInputs() && remaining == 0
    }

    /** `sendDisabled`. */
    predicate SendDisabled()
      reads this
    {
      checkingSession || IsLoading()
    }

    /**
     * The mount effect: a stored session that is still valid sends the admin to the
     * dashboard (`redirect`) and the form keeps checking; otherwise checking ends.
     * Reading an expired or unreadable session removes it from the store.
     */
    method CheckSession(store: Auth.SessionStore, now: int, parse: Parser) returns (redirect: bool)
      requires Valid()
      modifies this, store
      ensures Valid()
      ensures redirect <==> Auth.ReadSession(Auth.Stored(old(store.items)), now, parse).session.Some?
      ensures checkingSession == (old(checkingSession) && redirect)
      ensures store.items == if Auth.ReadSession(Auth.Stored(old(store.items)), now, parse).remove
                             then old(store.items) - {Auth.SessionKey} else old(store.items)
      ensures phase == old(phase) && otpValue == old(otpValue) && issuedOtp == old(issuedOtp)
      ensures remaining == old(remaining)
    {
      var session := store.Read(now, parse);
      if session.Some? {
        return true;
      }
      checkingSession := false;
      redirect := false;
    }

    /**
     * One second of the countdown effect: the timer runs only while the code inputs are
     * shown and time is left, and it lowers the seconds by one, never below zero.
     */
    method Tick() returns (ticked: bool)
      requires Valid()
      modifies this
      ensures Valid()
      ensures ticked <==> old(ShowOtpInputs()) && old(remaining) > 0
      ensures remaining == if ticked then old(remaining) - 1 else old(remaining)
      ensures phase == old(phase) && otpValue == old(otpValue) && issuedOtp == old(issuedOtp)
      ensures checkingSession == old(checkingSession)
    {
      if !ShowOtpInputs() || remaining <= 0 {
        return false;
      }
      remaining := if remaining - 1 > 0 then remaining - 1 else 0;
      ticked := true;
    }

    /**
     * `handleSendOtp` up to the request: the form is pending, the entry is cleared, and
     * `generated` is the fresh code it posts (`draws` are the random digits).
     */
    method StartSend(draws: seq<nat>) returns (generated: string)
      requires Valid()
      requires |draws| == 6 && forall i :: 0 <= i < 6 ==> draws[i] < 10
      modifies this
      ensures Valid()
      ensures phase == Pending && otpValue == []
      ensures |generated| == 6 && AllDigits(generated)
      ensures forall i :: 0 <= i < 6 ==> DigitValue(generated[i]) == draws[i]
      ensures issuedOtp == old(issuedOtp) && remaining == old(remaining)
      ensures checkingSession == old(checkingSession)
    {
      phase := Pending;
      generated := Auth.GenerateOtp(draws);
      otpValue := [];
    }

    /**
     * The answer to the send request: when the mail went out the code is issued, the form
     * has sent it and the countdown restarts at two minutes; on failure the form is idle
     * and no code is issued.
     */
    method FinishSend(generated: string, delivered: bool)
      requires Valid()
      requires |generated| == 6 && AllDigits(generated)
      modifies this
      ensures Valid()
      ensures delivered ==> issuedOtp == generated && phase == Sent && remaining == InitialCountdown
      ensures !delivered ==> issuedOtp == [] && phase == Idle && remaining == old(remaining)
      ensures otpValue == old(otpValue) && checkingSession == old(checkingSession)
    {
      if delivered {
        issuedOtp := generated;
        phase := Sent;
        remaining := InitialCountdown;
      } else {
        phase := Idle;
        issuedOtp := [];
      }
    }

    /** The code inputs' `onChange`. */
    method EnterOtp(value: string)
      requires Valid()
      modifies this
      ensures Valid()
      ensures otpValue == value
      ensures phase == old(phase) && issuedOtp == old(issuedOtp) && remaining == old(remaining)
      ensures checkingSession == old(checkingSession)
    {
      otpValue := value;
    }

    /**
     * `handleVerifyOtp`: the checks in their order; only a verified code moves the form
     * to "verifying" and persists a six-hour session at `now`, and every other outcome
     * changes nothing.
     */
    method Verify(store: Auth.SessionStore, now: int) returns (outcome: VerifyOutcome)
      requires Valid()
      modifies this, store
      ensures Valid()
      ensures outcome == CheckOtp(old(issuedOtp), old(otpValue), old(remaining))
      ensures outcome == Verified ==> phase == Verifying
      ensures outcome == Verified ==>
                store.items == old(store.items)[Auth.SessionKey := Auth.SessionText(now, now + Auth.SessionDurationMs)]
      ensures outcome != Verified ==> phase == old(phase) && store.items == old(store.items)
      ensures otpValue == old(otpValue) && issuedOtp == old(issuedOtp) && remaining == old(remaining)
      ensures checkingSession == old(checkingSession)
    {
      if |issuedOtp| != 6 {
        return NoOtpIssued;
      }
      var trimmed := Trim(otpValue);
      if |trimmed| != 6 {
        return IncompleteOtp;
      }
      if remaining == 0 {
        return OtpExpired;
      }
      if trimmed != issuedOtp {
        return OtpMismatch;
      }
      phase := Verifying;
      store.Persist(now);
      outcome := Verified;
    }
  }

  /**
   * Sending and then verifying the mailed code before the countdown ends signs the admin
   * in: the entry is cleared by sending, so the code typed afterwards decides.
   */
  method SendThenVerify(draws: seq<nat>, typed: string, store: Auth.SessionStore, now: int)
    returns (form: LoginForm, outcome: VerifyOutcome)
    requires |draws| == 6 && forall i :: 0 <= i < 6 ==> draws[i] < 10
    modifies store
    ensures outcome == CheckOtp(form.issuedOtp, typed, InitialCountdown)
    ensures Trim(typed) == form.issuedOtp ==> outcome == Verified && form.phase == Verifying
    ensures Trim(typed) != form.issuedOtp ==> outcome != Verified && store.items == old(store.items)
  {
    form := new LoginForm();
    var generated := form.StartSend(draws);
    form.FinishSend(generated, true);
    form.EnterOtp(typed);
    outcome := form.Verify(store, now);
  }
}

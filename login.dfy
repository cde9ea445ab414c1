/** The OTP login page: two input sanitisers and a two-step wizard (enter the
    mobile number and request an OTP, then enter the OTP and verify it). */
module Login {
  import opened Web
  import opened ApiTypes
  import opened AuthContext

  const MOBILE_LENGTH: nat := 10
  const OTP_LENGTH: nat := 6

  /** `s.replace(/\D/g, '')`: the ASCII digits of s, in order. */
  function Digits(s: string): (r: string)
    ensures AllDigits(r) && |r| <= |s|
  {
    if s == [] then [] else (if IsDigit(s[0]) then [s[0]] else []) + Digits(s[1..])
  }

  /** `s.replace(/\D/g, '').slice(0, limit)`: what an input field keeps of a keystroke's value. */
  function Sanitize(raw: string, limit: nat): (r: string)
    ensures AllDigits(r) && |r| <= limit
    ensures |r| <= |Digits(raw)| && r == Digits(raw)[..|r|] && (|Digits(raw)| >= limit ==> |r| == limit)
    ensures |Digits(raw)| <= limit ==> r == Digits(raw)
  {
    var d := Digits(raw);
    if |d| <= limit then d else d[..limit]
  }

  /** What a handler shows for a failed call: the error's message if truthy, else its default. */
  function MessageOr(message: Json, default: string): Json {
    if Truthy(message) then message else JStr(default)
  }

  const MOBILE_INVALID := "Please enter a valid 10-digit mobile number"
  const OTP_INVALID := "Please enter valid 6-digit OTP"
  const SEND_FAILED := "Failed to send OTP"
  const VERIFY_FAILED := "Failed to verify OTP"
  /** The TypeError of reading `.otp` / `.accessToken` on `data[0]` of an empty list. */
  const OTP_READ_FAILED := "Cannot read properties of undefined (reading 'otp')"
  const TOKEN_READ_FAILED := "Cannot read properties of undefined (reading 'accessToken')"

  /** The user record handleVerifyOtp signs in with. */
  function OtpUser(mobile: string): User {
    User("1", "User", "", mobile)
  }

  class LoginPage {
    var step: nat
    var mobile: string
    var otp: string
    var receivedOtp: string
    var loading: bool
    var error: Json
    const auth: AuthProvider

    /** The fields only ever hold what the sanitisers let through, and the wizard is on step 1 or 2. */
    ghost predicate Valid()
      reads this
    {
      && (step == 1 || step == 2)
      && AllDigits(mobile) && |mobile| <= MOBILE_LENGTH
      && AllDigits(otp) && |otp| <= OTP_LENGTH
    }

    constructor (auth: AuthProvider)
      ensures this.auth == auth && Valid()
      ensures step == 1 && mobile == "" && otp == "" && receivedOtp == "" && !loading && error == JStr("")
    {
      this.auth := auth;
      step, mobile, otp, receivedOtp := 1, "", "", "";
      loading, error := false, JStr("");
    }

    /** onChange of the mobile field. */
    method ChangeMobile(raw: string)
      requires Valid()
      modifies this`mobile
      ensures mobile == Sanitize(raw, MOBILE_LENGTH) && Valid()
    {
      mobile := Sanitize(raw, MOBILE_LENGTH);
    }

    /** onChange of the OTP field. */
    method ChangeOtp(raw: string)
      requires Valid()
      modifies this`otp
      ensures otp == Sanitize(raw, OTP_LENGTH) && Valid()
    {
      otp := Sanitize(raw, OTP_LENGTH);
    }

    /** handleSendOtp, given how authApi.sendOtp would settle. A number that is not
        10 digits long gets an error and no request; otherwise the wizard moves to
        step 2 only on a "success" answer, showing the OTP it returned. */
    method SendOtp(answer: Result<SendOtpResponse, ApiError>) returns (requested: bool)
      requires Valid()
      modifies this`step, this`receivedOtp, this`loading, this`error
      ensures Valid()
      ensures requested <==> |mobile| == MOBILE_LENGTH
      ensures !requested ==> error == JStr(MOBILE_INVALID) && step == old(step)
                             && receivedOtp == old(receivedOtp) && loading == old(loading)
      ensures requested ==> !loading
      ensures requested && answer.Err? ==>
                error == MessageOr(answer.error.message, SEND_FAILED) && step == old(step) && receivedOtp == old(receivedOtp)
      ensures requested && answer.Ok? && answer.value.status != "success" ==>
                error == JStr("") && step == old(step) && receivedOtp == old(receivedOtp)
      ensures requested && answer.Ok? && answer.value.status == "success" && answer.value.otps == [] ==>
                error == JStr(OTP_READ_FAILED) && step == old(step) && receivedOtp == old(receivedOtp)
      ensures requested && answer.Ok? && answer.value.status == "success" && answer.value.otps != [] ==>
                error == JStr("") && step == 2 && receivedOtp == answer.value.otps[0]
    {
      if |mobile| != MOBILE_LENGTH {
        error := JStr(MOBILE_INVALID);
        return false;
      }
      requested := true;
      loading := true;
      error := JStr("");
      match answer {
        case Ok(response) =>
          if response.status == "success" {
            if response.otps == [] {
              error := MessageOr(JStr(OTP_READ_FAILED), SEND_FAILED);
            } else {
              receivedOtp := response.otps[0];
              step := 2;
            }
          }
        case Err(e) =>
          error := MessageOr(e.message, SEND_FAILED);
      }
      loading := false;
    }

    /** handleVerifyOtp, given how authApi.verifyOtp would settle. An OTP that is not
        6 digits long gets an error and no request; a "success" answer stores the
        access token and signs in a user with the entered mobile number. */
    method VerifyOtp(answer: Result<VerifyOtpResponse, ApiError>) returns (requested: bool)
      requires Valid()
      modifies this`loading, this`error, auth, auth.browser`storage
      ensures Valid()
      ensures requested <==> |otp| == OTP_LENGTH
      ensures !requested ==> error == JStr(OTP_INVALID) && loading == old(loading)
      ensures requested ==> !loading
      ensures auth.loading == old(auth.loading)
      ensures var signedIn := requested && answer.Ok? && answer.value.status == "success" && answer.value.accessTokens != [];
              && (signedIn ==> error == JStr("") && auth.user == Some(OtpUser(mobile))
                               && auth.browser.storage ==
                                  StorageAfterLogin(old(auth.browser.storage)["token" := answer.value.accessTokens[0]],
                                                    auth.encode(OtpUser(mobile)), None))
              && (!signedIn ==> auth.user == old(auth.user) && auth.browser.storage == old(auth.browser.storage))
      ensures requested && answer.Err? ==> error == MessageOr(answer.error.message, VERIFY_FAILED)
      ensures requested && answer.Ok? && answer.value.status == "success" && answer.value.accessTokens == [] ==>
                error == JStr(TOKEN_READ_FAILED)
      ensures requested && answer.Ok? && answer.value.status != "success" ==> error == JStr("")
    {
      if otp == "" || |otp| != OTP_LENGTH {
        error := JStr(OTP_INVALID);
        return false;
      }
      requested := true;
      loading := true;
      error := JStr("");
      match answer {
        case Ok(response) =>
          if response.status == "success" {
            if response.accessTokens == [] {
              error := MessageOr(JStr(TOKEN_READ_FAILED), VERIFY_FAILED);
            } else {
              auth.browser.SetItem("token", response.accessTokens[0]);
              auth.Login(OtpUser(mobile), None);
            }
          }
        case Err(e) =>
          error := MessageOr(e.message, VERIFY_FAILED);
      }
      loading := false;
    }

    /** The "Change Mobile Number" button: back to step 1 with the OTP state cleared. */
    method ChangeMobileNumber()
      requires Valid()
      modifies this`step, this`otp, this`receivedOtp, this`error
      ensures step == 1 && otp == "" && receivedOtp == "" && error == JStr("")
      ensures Valid()
    {
      step := 1;
      otp := "";
      receivedOtp := "";
      error := JStr("");
    }
  }

  // ---------------------------------------------------------------------------
  // Properties of the sanitisers

  /** The digits of a concatenation are the digits of each part, in order. */
  lemma {:induction false} DigitsAppend(a: string, b: string)
    ensures Digits(a + b) == Digits(a) + Digits(b)
  {
    if a == [] {
      assert a + b == b;
    } else {
      var head := if IsDigit(a[0]) then [a[0]] else [];
      DigitsAppend(a[1..], b);
      assert (a + b)[0] == a[0] && (a + b)[1..] == a[1..] + b;
      calc {
        Digits(a + b);
        head + Digits(a[1..] + b);
        head + (Digits(a[1..]) + Digits(b));
        (head + Digits(a[1..])) + Digits(b);
      }
    }
  }

  /** A string of digits is its own digit string. */
  lemma {:induction false} DigitsOfDigits(s: string)
    requires AllDigits(s)
    ensures Digits(s) == s
  {
    if s != [] {
      DigitsOfDigits(s[1..]);
    }
  }

  /** A character survives exactly when it is a digit of the input. */
  lemma {:induction false} DigitsMembership(s: string, c: char)
    ensures c in Digits(s) <==> c in s && IsDigit(c)
  {
    if s != [] {
      DigitsMembership(s[1..], c);
      assert s == [s[0]] + s[1..];
    }
  }

  /** Sanitising an already sanitised value changes nothing. */
  lemma SanitizeIdempotent(raw: string, limit: nat)
    ensures Sanitize(Sanitize(raw, limit), limit) == Sanitize(raw, limit)
  {
    var r := Sanitize(raw, limit);
    DigitsOfDigits(r);
  }

  /** A value of at most `limit` digits passes through untouched. */
  lemma SanitizeKeepsValidInput(s: string, limit: nat)
    requires AllDigits(s) && |s| <= limit
    ensures Sanitize(s, limit) == s
  {
    DigitsOfDigits(s);
  }
}

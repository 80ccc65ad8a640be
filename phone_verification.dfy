/** The two-phase form: enter a number and request a code, then enter the code
    and verify it. Its six state fields move Idle -> Sent -> Verified, driven by
    the replies of the two HTTP calls. The transitions are specified as functions
    on a `FormState` value; the class `PhoneVerificationForm` holds the fields
    and its handler methods are proved to perform those transitions. */
module PhoneVerification {
  import opened Js
  import opened Http
  import opened InputPatterns

  const InvalidOtpMessage := "Invalid OTP"
  const SendFallbackMessage := "Failed to send OTP"
  const VerifyFallbackMessage := "Verification failed"

  /** What a rejected `post` or `body.json()` throws. */
  datatype Thrown = ErrorInstance(message: string) | NonError

  /** The result of one REST call as the form sees it: the parsed reply (which
      may be a falsy value rather than an object), or a thrown value. Whether
      the transport turns an HTTP error status into a throw is its own choice. */
  datatype PostResult = Replied(json: Maybe<ResponseBody>) | Threw(thrown: Thrown)

  /** The six `useState` fields. `signedUrl` may hold `undefined`, since it is
      set from a reply field that may be missing. */
  datatype FormState = FormState(
    phoneNumber: string,
    otp: string,
    isOtpSent: bool,
    isVerified: bool,
    signedUrl: Maybe<string>,
    error: string)

  function Initial(): (s: FormState)
    ensures s.phoneNumber == "" && s.otp == "" && s.signedUrl == Defined("")
    ensures !s.isOtpSent && !s.isVerified && !Truthy(s.signedUrl) && s.error == ""
  {
    FormState("", "", false, false, Defined(""), "")
  }

  /** The message shown for a thrown value: its own message if it is an Error. */
  function ErrorText(t: Thrown, fallback: string): (m: string)
    ensures t.ErrorInstance? ==> m == t.message
    ensures t.NonError? ==> m == fallback
  {
    match t
    case ErrorInstance(message) => message
    case NonError => fallback
  }

  /** A reply object with a truthy `status`. */
  predicate StatusTruthy(json: Maybe<ResponseBody>) {
    json.Defined? && json.value.status == Defined(true)
  }

  /** The body the form posts to request a code. */
  function IssueRequest(s: FormState): (b: RequestBody)
    ensures b.Fields? && b.phoneNumber == Defined(s.phoneNumber) && b.otp.Undefined?
  {
    Fields(Defined(s.phoneNumber), Undefined)
  }

  /** The body the form posts to verify a code. */
  function VerifyRequest(s: FormState): (b: RequestBody)
    ensures b.Fields? && b.phoneNumber == Defined(s.phoneNumber) && b.otp == Defined(s.otp)
  {
    Fields(Defined(s.phoneNumber), Defined(s.otp))
  }

  /** Typing into the number field replaces the number and nothing else. */
  function AfterPhoneChange(s: FormState, value: string): (r: FormState)
    ensures r.phoneNumber == value && r.(phoneNumber := s.phoneNumber) == s
  {
    s.(phoneNumber := value)
  }

  /** Typing into the code field replaces the code and nothing else. */
  function AfterOtpChange(s: FormState, value: string): (r: FormState)
    ensures r.otp == value && r.(otp := s.otp) == s
  {
    s.(otp := value)
  }

  /** `sendOTP`: clear the error; any reply marks the code as sent, a throw sets
      the error and leaves the phase as it was. */
  function AfterSendOtp(s: FormState, result: PostResult): (r: FormState)
    ensures r.isOtpSent <==> s.isOtpSent || result.Replied?
    ensures r.error == (if result.Threw? then ErrorText(result.thrown, SendFallbackMessage) else "")
    ensures r.(isOtpSent := s.isOtpSent, error := s.error) == s
  {
    match result
    case Replied(_) => s.(error := "", isOtpSent := true)
    case Threw(t) => s.(error := ErrorText(t, SendFallbackMessage))
  }

  /** `verifyOTP`: clear the error; a reply with a truthy status marks the form
      verified and stores the reply's signed URL; any other reply sets the error
      to "Invalid OTP"; a throw sets the thrown message. */
  function AfterVerifyOtp(s: FormState, result: PostResult): (r: FormState)
    ensures r.isVerified <==> s.isVerified || (result.Replied? && StatusTruthy(result.json))
    ensures result.Replied? && StatusTruthy(result.json) ==> r.signedUrl == result.json.value.signedURL
    ensures !(result.Replied? && StatusTruthy(result.json)) ==> r.signedUrl == s.signedUrl
    ensures r.error ==
      if result.Threw? then ErrorText(result.thrown, VerifyFallbackMessage)
      else if StatusTruthy(result.json) then ""
      else InvalidOtpMessage
    ensures r.phoneNumber == s.phoneNumber && r.otp == s.otp && r.isOtpSent == s.isOtpSent
  {
    match result
    case Replied(json) =>
      if StatusTruthy(json) then s.(error := "", isVerified := true, signedUrl := json.value.signedURL)
      else s.(error := InvalidOtpMessage)
    case Threw(t) => s.(error := ErrorText(t, VerifyFallbackMessage))
  }

  /** The form's submit handler: request a code until one was sent, verify after. */
  function AfterSubmit(s: FormState, result: PostResult): (r: FormState)
    ensures !s.isOtpSent ==> r == AfterSendOtp(s, result)
    ensures s.isOtpSent ==> r == AfterVerifyOtp(s, result)
  {
    if !s.isOtpSent then AfterSendOtp(s, result) else AfterVerifyOtp(s, result)
  }

  /** The phone input is disabled once a code was sent. */
  predicate PhoneFieldDisabled(s: FormState) {
    s.isOtpSent
  }

  /** The "Send OTP" button is rendered only before a code was sent. */
  predicate SendButtonShown(s: FormState) {
    !s.isOtpSent
  }

  /** The code input and its button are rendered between sending and verifying. */
  predicate OtpFieldShown(s: FormState) {
    s.isOtpSent && !s.isVerified
  }

  /** The success alert with the download link. */
  predicate SuccessLinkShown(s: FormState)
    ensures SuccessLinkShown(s) ==> s.isVerified && s.signedUrl.Defined? && |s.signedUrl.value| > 0
    ensures SuccessLinkShown(s) ==> !OtpFieldShown(s)
  {
    s.isVerified && Truthy(s.signedUrl)
  }

  /** The number field is editable exactly while the send button is rendered;
      the code field never appears beside the send button; and in a form that
      keeps the invariant, exactly one submit control is rendered until it is
      verified, and none after. */
  lemma FormControls(s: FormState)
    ensures PhoneFieldDisabled(s) <==> !SendButtonShown(s)
    ensures OtpFieldShown(s) ==> !SendButtonShown(s) && PhoneFieldDisabled(s)
    ensures Invariant(s) && !s.isVerified ==> SendButtonShown(s) != OtpFieldShown(s)
    ensures Invariant(s) && s.isVerified ==> !SendButtonShown(s) && !OtpFieldShown(s)
  {
  }

  /** The browser submits the form only through a rendered submit button and only
      when the enabled, rendered inputs match their patterns. */
  predicate SubmitAllowed(s: FormState)
    ensures SubmitAllowed(s) ==> !s.isVerified || !s.isOtpSent
    ensures SubmitAllowed(s) && !s.isOtpSent ==> IsPhoneNumber(s.phoneNumber)
    ensures SubmitAllowed(s) && s.isOtpSent ==> IsOtp(s.otp)
  {
    PhonePatternMeaning(s.phoneNumber);
    OtpPatternMeaning(s.otp);
    (SendButtonShown(s) && Matches(PhonePattern, s.phoneNumber)) ||
    (OtpFieldShown(s) && Matches(OtpPattern, s.otp))
  }

  /** What the user can do: type into an input, or submit the form (the REST call
      then ends with the given result). */
  datatype UiEvent = TypePhone(value: string) | TypeOtp(value: string) | SubmitForm(result: PostResult)

  /** An event as the browser delivers it: a disabled or absent input takes no
      input, and a submission the browser refuses runs no handler. */
  function Deliver(s: FormState, e: UiEvent): (r: FormState)
    ensures e.TypePhone? ==> r == if PhoneFieldDisabled(s) then s else AfterPhoneChange(s, e.value)
    ensures e.TypeOtp? ==> r == if OtpFieldShown(s) then AfterOtpChange(s, e.value) else s
    ensures e.SubmitForm? ==> r == if SubmitAllowed(s) then AfterSubmit(s, e.result) else s
  {
    match e
    case TypePhone(value) => if PhoneFieldDisabled(s) then s else AfterPhoneChange(s, value)
    case TypeOtp(value) => if OtpFieldShown(s) then AfterOtpChange(s, value) else s
    case SubmitForm(result) => if SubmitAllowed(s) then AfterSubmit(s, result) else s
  }

  /** The state after a sequence of events. */
  function Run(s: FormState, events: seq<UiEvent>): FormState
    decreases |events|
  {
    if events == [] then s else Run(Deliver(s, events[0]), events[1..])
  }

  /** The form's invariant: verified only after a code was sent, and a sent code
      went to a number matching the phone pattern. */
  predicate Invariant(s: FormState) {
    (s.isVerified ==> s.isOtpSent) &&
    (s.isOtpSent ==> IsPhoneNumber(s.phoneNumber))
  }

  /** Every delivered event keeps the invariant. */
  lemma DeliverKeepsInvariant(s: FormState, e: UiEvent)
    requires Invariant(s)
    ensures Invariant(Deliver(s, e))
  {
    if e.SubmitForm? && SubmitAllowed(s) && !s.isOtpSent {
      PhonePatternMeaning(s.phoneNumber);
    }
  }

  /** Any sequence of events keeps the invariant. */
  lemma {:induction false} RunKeepsInvariant(s: FormState, events: seq<UiEvent>)
    requires Invariant(s)
    ensures Invariant(Run(s, events))
    decreases |events|
  {
    if events != [] {
      DeliverKeepsInvariant(s, events[0]);
      RunKeepsInvariant(Deliver(s, events[0]), events[1..]);
    }
  }

  /** Once a code was sent, it stays sent and the number can no longer change. */
  lemma {:induction false} SentIsPermanent(s: FormState, events: seq<UiEvent>)
    requires s.isOtpSent
    ensures Run(s, events).isOtpSent
    ensures Run(s, events).phoneNumber == s.phoneNumber
    decreases |events|
  {
    if events != [] {
      SentIsPermanent(Deliver(s, events[0]), events[1..]);
    }
  }

  /** A verified form is final: no event changes it any more. */
  lemma {:induction false} VerifiedIsFinal(s: FormState, events: seq<UiEvent>)
    requires Invariant(s) && s.isVerified
    ensures Run(s, events) == s
    decreases |events|
  {
    if events != [] {
      assert Deliver(s, events[0]) == s;
      VerifiedIsFinal(s, events[1..]);
    }
  }

  /** The form submits a code for verification only after one was sent, and
      only a six-digit one. */
  lemma VerifyRequiresSentAndWellFormedOtp(s: FormState, result: PostResult)
    requires SubmitAllowed(s) && s.isOtpSent
    ensures Deliver(s, SubmitForm(result)) == AfterVerifyOtp(s, result)
    ensures !s.isVerified && IsOtp(s.otp)
  {
    OtpPatternMeaning(s.otp);
  }

  /** The success link appears only on a verify reply whose status is truthy and
      whose signed URL is a non-empty string, and only after a code was sent. */
  lemma SuccessLinkOnlyAfterTruthyStatus(s: FormState, e: UiEvent)
    requires Invariant(s) && !SuccessLinkShown(s) && SuccessLinkShown(Deliver(s, e))
    ensures s.isOtpSent && !s.isVerified
    ensures e.SubmitForm? && e.result.Replied? && StatusTruthy(e.result.json)
    ensures Truthy(e.result.json.value.signedURL)
  {
  }

  /** The form state as a class whose fields the handlers update in place. */
  class PhoneVerificationForm {
    var phoneNumber: string
    var otp: string
    var isOtpSent: bool
    var isVerified: bool
    var signedUrl: Maybe<string>
    var error: string

    function State(): FormState
      reads this
    {
      FormState(phoneNumber, otp, isOtpSent, isVerified, signedUrl, error)
    }

    ghost predicate Valid()
      reads this
    {
      Invariant(State())
    }

    constructor ()
      ensures State() == Initial() && Valid()
    {
      phoneNumber, otp := "", "";
      isOtpSent, isVerified := false, false;
      signedUrl, error := Defined(""), "";
    }

    method HandlePhoneChange(value: string)
      modifies this
      ensures State() == AfterPhoneChange(old(State()), value)
    {
      phoneNumber := value;
    }

    method HandleOtpChange(value: string)
      modifies this
      ensures State() == AfterOtpChange(old(State()), value)
    {
      otp := value;
    }

    method SendOtpHandler(result: PostResult)
      modifies this
      ensures State() == AfterSendOtp(old(State()), result)
    {
      error := "";
      match result {
        case Replied(_) =>
          isOtpSent := true;
        case Threw(t) =>
          error := if t.ErrorInstance? then t.message else SendFallbackMessage;
      }
    }

    method VerifyOtpHandler(result: PostResult)
      modifies this
      ensures State() == AfterVerifyOtp(old(State()), result)
    {
      error := "";
      match result {
        case Replied(json) =>
          if json.Defined? && json.value.status == Defined(true) {
            isVerified := true;
            signedUrl := json.value.signedURL;
          } else {
            error := InvalidOtpMessage;
          }
        case Threw(t) =>
          error := if t.ErrorInstance? then t.message else VerifyFallbackMessage;
      }
    }

    method Submit(result: PostResult)
      modifies this
      ensures State() == AfterSubmit(old(State()), result)
    {
      if !isOtpSent {
        SendOtpHandler(result);
      } else {
        VerifyOtpHandler(result);
      }
    }

    /** Deliver one user event through the browser's gating to the handlers. */
    method Receive(e: UiEvent)
      requires Valid()
      modifies this
      ensures State() == Deliver(old(State()), e) && Valid()
    {
      DeliverKeepsInvariant(State(), e);
      match e {
        case TypePhone(value) =>
          if !isOtpSent {
            HandlePhoneChange(value);
          }
        case TypeOtp(value) =>
          if isOtpSent && !isVerified {
            HandleOtpChange(value);
          }
        case SubmitForm(result) =>
          if SubmitAllowed(State()) {
            Submit(result);
          }
      }
    }
  }
}

/** The verify handler behind `POST /validate`: it rebuilds the reference id the
    issue handler used, asks the provider for a verdict on the submitted code and
    maps the three possible results to three responses. The provider is a
    parameter: its reply to the one verify request the handler makes. */
module VerifyOtp {
  import opened Js
  import opened Http

  /** What the reference-id template appends to the number. */
  const ReferenceSuffix := "-YourAppName"
  const VerifiedMessage := "OTP verified successfully"
  const FailedMessage := "OTP verification failed"
  /** The placeholder the handler returns in place of a real signed download link. */
  const SignedUrlStub := "XXXXXXXXXXXXXXXXXXXXXX"

  /** The handler's environment: only the provider project is read. */
  datatype Config = Config(projectId: Maybe<string>)

  /** The parameters of a provider "verify OTP message" request. */
  datatype VerifyOtpParams = VerifyOtpParams(
    applicationId: Maybe<string>,
    destinationIdentity: Maybe<string>,
    otp: Maybe<string>,
    referenceId: string)

  /** The part of the provider's result the handler reads. */
  datatype VerificationResponse = VerificationResponse(valid: Maybe<bool>)

  /** The provider's reply: a result, possibly without a verification response,
      or an exception (a provider or network failure). */
  datatype ProviderReply =
    | Answered(verificationResponse: Maybe<VerificationResponse>)
    | Threw

  type Provider = VerifyOtpParams -> ProviderReply

  /** The three cases the handler distinguishes. */
  datatype Verdict = Valid | Invalid | Error

  /** Valid only for a present verification response whose `Valid` is `true`;
      anything else the provider answers is Invalid; an exception is Error. */
  function VerdictOf(reply: ProviderReply): (v: Verdict)
    ensures v == Valid <==> reply == Answered(Defined(VerificationResponse(Defined(true))))
    ensures v == Error <==> reply.Threw?
  {
    match reply
    case Threw => Error
    case Answered(Defined(VerificationResponse(Defined(true)))) => Valid
    case Answered(_) => Invalid
  }

  /** The reference id, built by the same template as at issue time. */
  function ReferenceId(phoneNumber: Maybe<string>): (r: string)
    ensures |r| == |Text(phoneNumber)| + 12
    ensures r[..|Text(phoneNumber)|] == Text(phoneNumber)
    ensures r[|Text(phoneNumber)|..] == "-YourAppName"
  {
    var t := Text(phoneNumber);
    assert (t + ReferenceSuffix)[|t|..] == ReferenceSuffix;
    t + ReferenceSuffix
  }

  /** The verify request: number and code are passed on unchanged. */
  function VerifyParams(phoneNumber: Maybe<string>, otp: Maybe<string>, config: Config): (p: VerifyOtpParams)
    ensures p.destinationIdentity == phoneNumber && p.otp == otp
    ensures p.referenceId == ReferenceId(phoneNumber)
    ensures p.applicationId == config.projectId
  {
    VerifyOtpParams(config.projectId, phoneNumber, otp, ReferenceId(phoneNumber))
  }

  /** The response for a provider reply. A signed URL appears exactly on a Valid
      verdict; an Invalid verdict is a 200 with status false; only an exception
      gives a 400, whose body has neither status nor URL. */
  function ResponseFor(reply: ProviderReply): (r: Response)
    ensures AllowsAnyOriginAndHeader(r)
    ensures r.body.signedURL.Defined? <==> VerdictOf(reply) == Valid
    ensures r.body.signedURL.Defined? ==> Truthy(r.body.signedURL)
    ensures r.statusCode == 400 <==> VerdictOf(reply) == Error
    ensures r.statusCode == 200 <==> VerdictOf(reply) != Error
    ensures VerdictOf(reply) == Valid ==> r.body.status == Defined(true) && r.body.message == VerifiedMessage
    ensures VerdictOf(reply) == Invalid ==> r.body.status == Defined(false) && r.body.message == FailedMessage
    ensures VerdictOf(reply) == Error ==> r.body == MessageOnly(FailedMessage)
  {
    match reply
    case Threw =>
      Reply(400, MessageOnly(FailedMessage))
    case Answered(response) =>
      if response.Defined? && response.value.valid == Defined(true) then
        Reply(200, ResponseBody(VerifiedMessage, Defined(true), Defined(SignedUrlStub)))
      else
        Reply(200, ResponseBody(FailedMessage, Defined(false), Undefined))
  }

  /** The handler. A body that does not parse rejects before the provider is
      asked (the parse is outside the try); otherwise exactly one verify request
      is made and its reply decides the response. */
  function Handle(event: Event, config: Config, provider: Provider): (r: Invocation<VerifyOtpParams>)
    ensures event.body.Unparseable? ==> r == Invocation([], Rejected(BodyParseFailure))
    ensures event.body.Fields? ==>
      r.calls == [VerifyParams(event.body.phoneNumber, event.body.otp, config)] &&
      r.outcome == Returned(ResponseFor(provider(r.calls[0])))
  {
    match event.body
    case Unparseable => Invocation([], Rejected(BodyParseFailure))
    case Fields(phoneNumber, otp) =>
      var params := VerifyParams(phoneNumber, otp, config);
      Invocation([params], Returned(ResponseFor(provider(params))))
  }

  /** The verdict the provider gave in an invocation that reached it. */
  function VerdictIn(event: Event, config: Config, provider: Provider): (v: Verdict)
    requires event.body.Fields?
    ensures v == VerdictOf(provider(Handle(event, config, provider).calls[0]))
  {
    VerdictOf(provider(VerifyParams(event.body.phoneNumber, event.body.otp, config)))
  }

  /** A response carries a signed URL iff the provider's verdict was Valid; on
      every other path, including a rejected invocation, none is handed out. */
  lemma SignedUrlOnlyOnValid(event: Event, config: Config, provider: Provider)
    ensures var r := Handle(event, config, provider);
      (r.outcome.Returned? && r.outcome.response.body.signedURL.Defined?) <==>
      (event.body.Fields? && VerdictIn(event, config, provider) == Valid)
  {
  }

  /** A provider exception is a 400 and never a 200; an Invalid verdict is a 200
      with status false, never an HTTP error. */
  lemma ErrorAndInvalidAreDistinguished(event: Event, config: Config, provider: Provider)
    requires event.body.Fields?
    ensures var resp := Handle(event, config, provider).outcome.response;
      (VerdictIn(event, config, provider) == Error ==> resp.statusCode == 400 && resp.body.status.Undefined?) &&
      (VerdictIn(event, config, provider) == Invalid ==> resp.statusCode == 200 && resp.body.status == Defined(false))
  {
  }

  /** Every response body is built from the handler's own constants: no field can
      carry the submitted code or number. */
  lemma ResponseFieldsAreConstants(event: Event, config: Config, provider: Provider)
    ensures var r := Handle(event, config, provider);
      r.outcome.Returned? ==>
        r.outcome.response.body.message in {VerifiedMessage, FailedMessage} &&
        r.outcome.response.body.signedURL in {Undefined, Defined(SignedUrlStub)}
  {
  }

  /** The response does not depend on the submitted code except through the
      provider's verdict: two requests for the same number whose provider replies
      agree get the same outcome, whatever codes they carried. */
  lemma ResponseIndependentOfCode(phoneNumber: Maybe<string>, otp1: Maybe<string>, otp2: Maybe<string>,
                                  config: Config, provider: Provider)
    requires provider(VerifyParams(phoneNumber, otp1, config)) == provider(VerifyParams(phoneNumber, otp2, config))
    ensures Handle(Event(Fields(phoneNumber, otp1)), config, provider).outcome ==
            Handle(Event(Fields(phoneNumber, otp2)), config, provider).outcome
  {
  }
}

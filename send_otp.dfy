/** The issue handler behind `POST /otp`: an eligibility check by equality with
    the configured origination number, then one request to the SMS provider to
    generate and deliver a six-digit code. The provider is a parameter: the
    answer it gives to the one send request the handler may make. */
module SendOtp {
  import opened Js
  import opened Http

  const BrandName := "YourAppName"
  /** What the reference-id template appends to the number. */
  const ReferenceSuffix := "-YourAppName"
  const Channel := "SMS"
  const CodeLength := 6
  const ValidityPeriod := 15  // minutes
  const AllowedAttempts := 3
  const Language := "en-US"
  const OriginationIdentity := "Test"

  const SentMessage := "OTP sent successfully"
  const NotFoundMessage := "Phone number not found in database"

  /** The handler's environment: the provider project and the one number allowed
      to receive a code (either may be unset). */
  datatype Config = Config(projectId: Maybe<string>, originationNumber: Maybe<string>)

  /** The parameters of a provider "send OTP message" request. */
  datatype SendOtpParams = SendOtpParams(
    applicationId: Maybe<string>,
    channel: string,
    brandName: string,
    codeLength: int,
    validityPeriod: int,
    allowedAttempts: int,
    language: string,
    destinationIdentity: Maybe<string>,
    originationIdentity: string,
    referenceId: string)

  /** The provider's answer to a send: the awaited promise resolves or rejects. */
  datatype SendResult = Accepted | ProviderError

  type Provider = SendOtpParams -> SendResult

  /** Eligibility: loose equality of the submitted number with the configured one. */
  function IsPhoneNumberExists(phoneNumber: Maybe<string>, config: Config): (r: bool)
    ensures config.originationNumber.Defined? ==>
      (r <==> phoneNumber.Defined? && phoneNumber.value == config.originationNumber.value)
    ensures config.originationNumber.Undefined? ==> (r <==> phoneNumber.Undefined?)
  {
    LooseEquals(phoneNumber, config.originationNumber)
  }

  /** The reference id that binds a code to a number: the number's text, a dash
      and the application name. */
  function ReferenceId(phoneNumber: Maybe<string>): (r: string)
    ensures |r| == |Text(phoneNumber)| + 12
    ensures r[..|Text(phoneNumber)|] == Text(phoneNumber)
    ensures r[|Text(phoneNumber)|..] == "-YourAppName"
  {
    var t := Text(phoneNumber);
    assert (t + ReferenceSuffix)[|t|..] == ReferenceSuffix;
    t + ReferenceSuffix
  }

  /** The request `sendOTP` hands to the provider for the given number. */
  function SendParams(phoneNumber: Maybe<string>, config: Config): (p: SendOtpParams)
    ensures p.destinationIdentity == phoneNumber
    ensures p.referenceId == ReferenceId(phoneNumber)
    ensures p.applicationId == config.projectId
  {
    SendOtpParams(
      applicationId := config.projectId,
      channel := Channel,
      brandName := BrandName,
      codeLength := CodeLength,
      validityPeriod := ValidityPeriod,
      allowedAttempts := AllowedAttempts,
      language := Language,
      destinationIdentity := phoneNumber,
      originationIdentity := OriginationIdentity,
      referenceId := ReferenceId(phoneNumber))
  }

  /** The handler. A body that does not parse rejects before anything else; an
      ineligible number gets a 400 and no provider call; an eligible one gets
      exactly one send, and a 200 only if that send succeeds (a failed send is
      not caught, so the invocation rejects). */
  function Handle(event: Event, config: Config, provider: Provider): (r: Invocation<SendOtpParams>)
    ensures |r.calls| <= 1
    ensures event.body.Unparseable? ==> r == Invocation([], Rejected(BodyParseFailure))
    ensures event.body.Fields? && !IsPhoneNumberExists(event.body.phoneNumber, config) ==>
      r.calls == [] && r.outcome.Returned? &&
      r.outcome.response.statusCode == 400 && r.outcome.response.body.message == NotFoundMessage
    ensures event.body.Fields? && IsPhoneNumberExists(event.body.phoneNumber, config) ==>
      r.calls == [SendParams(event.body.phoneNumber, config)] &&
      (provider(r.calls[0]) == Accepted ==>
         r.outcome.Returned? && r.outcome.response.statusCode == 200 &&
         r.outcome.response.body.message == SentMessage) &&
      (provider(r.calls[0]) == ProviderError ==> r.outcome == Rejected(ProviderSendFailure))
    ensures r.outcome.Returned? ==>
      AllowsAnyOriginAndHeader(r.outcome.response) &&
      r.outcome.response.body == MessageOnly(r.outcome.response.body.message)
  {
    match event.body
    case Unparseable => Invocation([], Rejected(BodyParseFailure))
    case Fields(phoneNumber, _) =>
      if IsPhoneNumberExists(phoneNumber, config) then
        var params := SendParams(phoneNumber, config);
        match provider(params)
        case Accepted => Invocation([params], Returned(Reply(200, MessageOnly(SentMessage))))
        case ProviderError => Invocation([params], Rejected(ProviderSendFailure))
      else
        Invocation([], Returned(Reply(400, MessageOnly(NotFoundMessage))))
  }

  /** Whether the handler would make a send for this event. */
  predicate Eligible(event: Event, config: Config) {
    event.body.Fields? && IsPhoneNumberExists(event.body.phoneNumber, config)
  }

  /** A send is made iff the body parses and the number equals the configured
      one (both may be unset); otherwise a parsed body gets the "not found" answer. */
  lemma SendIffEligible(event: Event, config: Config, provider: Provider)
    ensures |Handle(event, config, provider).calls| == 1 <==>
      event.body.Fields? && event.body.phoneNumber == config.originationNumber
    ensures Handle(event, config, provider).outcome == Returned(Reply(400, MessageOnly(NotFoundMessage))) <==>
      event.body.Fields? && event.body.phoneNumber != config.originationNumber
  {
  }

  /** Every request sent to the provider has the fixed parameters; only the
      destination and the reference id depend on the submitted number, and the
      application id on the configuration. */
  lemma SendParamsFixed(event: Event, config: Config, provider: Provider, p: SendOtpParams)
    requires p in Handle(event, config, provider).calls
    ensures p.channel == "SMS" && p.brandName == "YourAppName" && p.codeLength == 6
    ensures p.validityPeriod == 15 && p.allowedAttempts == 3 && p.language == "en-US"
    ensures p.originationIdentity == "Test" && p.applicationId == config.projectId
    ensures p.destinationIdentity == event.body.phoneNumber
    ensures p.referenceId == Text(event.body.phoneNumber) + "-YourAppName"
  {
  }

  /** Distinct submitted numbers get distinct reference ids. */
  lemma ReferenceIdInjective(a: string, b: string)
    ensures ReferenceId(Defined(a)) == ReferenceId(Defined(b)) ==> a == b
  {
  }

  /** A request without a phone number binds the same reference id as one whose
      number is the text "undefined". */
  lemma MissingNumberCollides()
    ensures ReferenceId(Undefined) == ReferenceId(Defined("undefined"))
  {
  }

  /** The send requests made by handling `events` one after another. Each
      invocation is independent: nothing is cached between them. */
  function Sends(events: seq<Event>, config: Config, provider: Provider): (r: seq<SendOtpParams>)
    ensures |r| <= |events|
  {
    if events == [] then []
    else Handle(events[0], config, provider).calls + Sends(events[1..], config, provider)
  }

  /** The number of eligible events in a sequence. */
  function CountEligible(events: seq<Event>, config: Config): nat {
    if events == [] then 0
    else (if Eligible(events[0], config) then 1 else 0) + CountEligible(events[1..], config)
  }

  /** Repeated issue requests are not deduplicated: there is exactly one send per
      eligible request, whatever came before it. */
  lemma {:induction false} OneSendPerEligibleRequest(events: seq<Event>, config: Config, provider: Provider)
    ensures |Sends(events, config, provider)| == CountEligible(events, config)
  {
    if events != [] {
      OneSendPerEligibleRequest(events[1..], config, provider);
    }
  }

  /** Issuing twice for the same eligible number sends the same request twice. */
  lemma ResendIsNotSuppressed(event: Event, config: Config, provider: Provider)
    requires Eligible(event, config)
    ensures Sends([event, event], config, provider) ==
      [SendParams(event.body.phoneNumber, config), SendParams(event.body.phoneNumber, config)]
  {
  }
}

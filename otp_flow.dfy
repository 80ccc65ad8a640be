/** The flow across the three components: the form posts to the issue handler,
    later to the verify handler, and both handlers must name the same provider
    binding. The transport between form and handlers is left abstract: it either
    hands the form the handler's response body or throws. */
module OtpFlow {
  import opened Js
  import opened Http
  import SendOtp
  import VerifyOtp
  import opened PhoneVerification

  /** The two handlers build the reference id by the same rule. */
  lemma ReferenceIdsAgree(phoneNumber: Maybe<string>)
    ensures SendOtp.ReferenceId(phoneNumber) == VerifyOtp.ReferenceId(phoneNumber)
  {
  }

  /** A transport that either delivers the handler's response body to the form
      or makes the call throw. */
  predicate Carries(result: PostResult, response: Response) {
    result.Threw? || result == Replied(Defined(response.body))
  }

  /** After the form's code request succeeds, every later verify request the form
      makes, whatever the user does in between, reaches the provider with the
      same destination and reference id as the send request made for it. */
  lemma VerifyUsesIssueBinding(
    s: FormState, result: PostResult, events: seq<UiEvent>,
    sendConfig: SendOtp.Config, sendProvider: SendOtp.Provider,
    verifyConfig: VerifyOtp.Config, verifyProvider: VerifyOtp.Provider)
    requires SubmitAllowed(s) && !s.isOtpSent && result.Replied?
    ensures var later := Run(Deliver(s, SubmitForm(result)), events);
      var check := VerifyOtp.Handle(Event(VerifyRequest(later)), verifyConfig, verifyProvider).calls[0];
      forall send | send in SendOtp.Handle(Event(IssueRequest(s)), sendConfig, sendProvider).calls ::
        send.referenceId == check.referenceId && send.destinationIdentity == check.destinationIdentity
  {
    var sent := Deliver(s, SubmitForm(result));
    assert sent.isOtpSent && sent.phoneNumber == s.phoneNumber;
    SentIsPermanent(sent, events);
  }

  /** End to end: answering the form's verify request, the handler's reply makes
      the form verified, and shows the success link, exactly when the provider's
      verdict is Valid, provided the transport delivers the reply. */
  lemma VerifiedIffValidVerdict(s: FormState, config: VerifyOtp.Config, provider: VerifyOtp.Provider)
    requires s.isOtpSent && !s.isVerified
    ensures var inv := VerifyOtp.Handle(Event(VerifyRequest(s)), config, provider);
      var after := Deliver(s, SubmitForm(Replied(Defined(inv.outcome.response.body))));
      var valid := VerifyOtp.VerdictOf(provider(inv.calls[0])) == VerifyOtp.Valid;
      SubmitAllowed(s) ==>
        (after.isVerified <==> valid) && (SuccessLinkShown(after) <==> valid) &&
        (valid ==> after.signedUrl == Defined(VerifyOtp.SignedUrlStub) && after.error == "") &&
        (!valid ==> after.error == InvalidOtpMessage)
  {
  }

  /** Whatever the transport does with the verify handler's reply (deliver it or
      throw), the form can only become verified on a Valid verdict. */
  lemma NoVerificationWithoutValidVerdict(
    s: FormState, result: PostResult, config: VerifyOtp.Config, provider: VerifyOtp.Provider)
    requires !s.isVerified
    requires Carries(result, VerifyOtp.Handle(Event(VerifyRequest(s)), config, provider).outcome.response)
    ensures Deliver(s, SubmitForm(result)).isVerified ==>
      VerifyOtp.VerdictIn(Event(VerifyRequest(s)), config, provider) == VerifyOtp.Valid
  {
  }
}

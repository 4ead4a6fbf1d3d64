/**
  The mail routes of server.js as handlers on a `Mailer`: each decides
  which messages to hand to `sendEmail`, in which order, and how to
  answer. `/send-password-reset` and `/notify-quality` are not part of
  this model.
 */
module Routes {
  import opened Values
  import opened Transport
  import opened Templates
  import opened PartnerMail

  // ---------------------------------------------------------------------
  // /send-confirmation (server.js:105-133)

  /** `isRegistered` is its truthiness; absent means `false`. */
  datatype ConfirmationRequest = ConfirmationRequest(
    email: Field, claimId: Field, language: Field, isRegistered: bool)

  function ConfirmationMail(req: ConfirmationRequest): Mail {
    var t := Confirmation(req.claimId, req.language, req.isRegistered);
    Mail(Address(req.email), t.subject, t.body)
  }

  method SendConfirmation(mailer: Mailer, req: ConfirmationRequest) returns (reply: Reply)
    modifies mailer
    ensures Dispatched(old(mailer.outbox), mailer.outbox, ConfirmationMail(req), reply)
    ensures !req.email.Str? ==> reply == SendFailed
  {
    reply := mailer.Dispatch(ConfirmationMail(req));
  }

  // ---------------------------------------------------------------------
  // /send-to-partner (server.js:136-178)

  function PartnerMessage(req: PartnerRequest, text: string): Mail {
    Mail(Address(req.partnerEmail), PartnerSubject(req.claimId), text)
  }

  /** A `null` attachments list throws while the body is built, before the
      `try`: nothing is sent and the model answers `Crashed`; what the
      client receives is not modelled. */
  method SendToPartner(mailer: Mailer, req: PartnerRequest) returns (reply: Reply)
    modifies mailer
    ensures req.attachments.None? ==> reply == Crashed && mailer.outbox == old(mailer.outbox)
    ensures req.attachments.Some? ==>
      Dispatched(old(mailer.outbox), mailer.outbox, PartnerMessage(req, PartnerText(PartnerMail.Wording, req).value), reply)
    ensures req.attachments.Some? && !req.partnerEmail.Str? ==> reply == SendFailed
  {
    var text := ComposePartnerText(PartnerMail.Wording, req);
    if text.None? {
      return Crashed;
    }
    reply := mailer.Dispatch(PartnerMessage(req, text.value));
  }

  // ---------------------------------------------------------------------
  // /send-feedback-survey (server.js:197-218)

  datatype SurveyRequest = SurveyRequest(email: Field, claimId: Field, feedbackLink: Field)

  /** The guard of line 200: all three fields truthy. */
  predicate SurveyComplete(req: SurveyRequest) {
    Truthy(req.email) && Truthy(req.claimId) && Truthy(req.feedbackLink)
  }

  const SurveySubject := "Įvertinkite mūsų aptarnavimą – pretenzija "
  const SurveyThanks := "Ačiū, kad pasinaudojote mūsų paslaugomis!\n\n"
  const SurveyAsk := "Prašome trumpai įvertinti aptarnavimą:\n"
  const SurveyOpinion := "\n\nJūsų nuomonė mums svarbi."
  const Regards := "\n\nPagarbiai,\nRubineta kokybės komanda"

  function SurveyMail(req: SurveyRequest): Mail {
    Mail(Address(req.email), SurveySubject + ("#" + Render(req.claimId)),
      SurveyThanks + SurveyAsk + Render(req.feedbackLink) + (SurveyOpinion + Regards))
  }

  /** An incomplete request is answered 400 without any send. */
  method SendFeedbackSurvey(mailer: Mailer, req: SurveyRequest) returns (reply: Reply)
    modifies mailer
    ensures reply == MissingFields <==> !SurveyComplete(req)
    ensures !SurveyComplete(req) ==> mailer.outbox == old(mailer.outbox)
    ensures SurveyComplete(req) ==> Dispatched(old(mailer.outbox), mailer.outbox, SurveyMail(req), reply)
  {
    if !Truthy(req.email) || !Truthy(req.claimId) || !Truthy(req.feedbackLink) {
      return MissingFields;
    }
    reply := mailer.Dispatch(SurveyMail(req));
  }

  /** The survey mail carries the link to rate the service, and its
      subject the claim ID. */
  lemma SurveyMailQuotesLink(req: SurveyRequest)
    ensures Contains(SurveyMail(req).text, Render(req.feedbackLink))
    ensures Contains(SurveyMail(req).subject, "#" + Render(req.claimId))
  {
    ContainsInfix(SurveyThanks + SurveyAsk, Render(req.feedbackLink), SurveyOpinion + Regards);
    assert SurveyMail(req).subject == SurveySubject + ("#" + Render(req.claimId)) + "";
    ContainsInfix(SurveySubject, "#" + Render(req.claimId), "");
  }

  // ---------------------------------------------------------------------
  // /notify-resolved (server.js:221-242)

  datatype ResolvedRequest = ResolvedRequest(
    claimId: Field, customerEmail: Field, customerName: Field, productName: Field)

  const CustomerSubject := "✅ Jūsų pretenzija "
  const Solved := " išspręsta"
  const QualitySubject := "🔧 Meistras išsprendė pretenziją "
  const ResolvedStart := "Sveiki, "
  const ResolvedYours := ",\n\nJūsų pretenzija #"
  const ProductIntro := " (produktas: "
  const ResolvedThanks := "\nDėkojame, kad pasirinkote Rubineta."
  const Contacts := "\ninfo@rubineta.lt\n+370 612 34567"
  const MasterReported := "Meistras pranešė, kad pretenzija #"
  const PleaseClose := "\nPrašome patikrinti ir uždaryti užduotį sistemoje."
  const ReviewIntro := "\n\nPeržiūrėti: "

  function ProductPart(req: ResolvedRequest): string {
    ProductIntro + Render(req.productName) + ")"
  }

  function ClaimViewLink(claimId: string): string {
    "https://pretenzijos-sistema.onrender.com/claim-view.html?id=" + claimId
  }

  /** Lines 226-227: to the customer. */
  function ResolvedCustomerMail(req: ResolvedRequest): Mail {
    var id := Render(req.claimId);
    Mail(Address(req.customerEmail), CustomerSubject + ("#" + id) + Solved,
      ResolvedStart + Render(req.customerName) + ResolvedYours + id
      + ProductPart(req) + (" yra išspręsta." + ResolvedThanks + Regards + Contacts))
  }

  /** Lines 232-233: to the quality team. */
  function ResolvedQualityMail(req: ResolvedRequest): Mail {
    var id := Render(req.claimId);
    Mail(QualityTeam, QualitySubject + ("#" + id),
      MasterReported + id + ProductPart(req)
      + (" yra išspręsta." + PleaseClose + ReviewIntro) + ClaimViewLink(id))
  }

  /** The customer is told first; the quality team only once the customer
      mail went out; success only when both went out. */
  method NotifyResolved(mailer: Mailer, req: ResolvedRequest) returns (reply: Reply)
    modifies mailer
    ensures var n := |old(mailer.outbox)|;
      && n < |mailer.outbox| <= n + 2
      && mailer.outbox[..n] == old(mailer.outbox)
      && mailer.outbox[n].mail == ResolvedCustomerMail(req)
      && (|mailer.outbox| == n + 2 <==> mailer.outbox[n].delivered)
      && (|mailer.outbox| == n + 2 ==> mailer.outbox[n + 1].mail == ResolvedQualityMail(req))
      && (reply == Sent <==> forall k | n <= k < |mailer.outbox| :: mailer.outbox[k].delivered)
      && (reply != Sent ==> reply == SendFailed)
    ensures !req.customerEmail.Str? ==> reply == SendFailed && |mailer.outbox| == |old(mailer.outbox)| + 1
  {
    var delivered := mailer.Send(ResolvedCustomerMail(req));
    if !delivered {
      return SendFailed;
    }
    delivered := mailer.Send(ResolvedQualityMail(req));
    reply := if delivered then Sent else SendFailed;
  }

  /** The customer mail names the claim and the product. */
  lemma CustomerMailQuotesClaim(req: ResolvedRequest)
    ensures Contains(ResolvedCustomerMail(req).subject, "#" + Render(req.claimId))
    ensures Contains(ResolvedCustomerMail(req).text, ProductPart(req))
  {
    var id := Render(req.claimId);
    ContainsInfix(CustomerSubject, "#" + id, Solved);
    ContainsInfix(ResolvedStart + Render(req.customerName) + ResolvedYours + id, ProductPart(req),
      " yra išspręsta." + ResolvedThanks + Regards + Contacts);
  }

  /** The quality mail names the claim and the product, and links to the
      claim's page. */
  lemma QualityMailQuotesClaim(req: ResolvedRequest)
    ensures Contains(ResolvedQualityMail(req).subject, "#" + Render(req.claimId))
    ensures Contains(ResolvedQualityMail(req).text, ProductPart(req))
    ensures Contains(ResolvedQualityMail(req).text, ClaimViewLink(Render(req.claimId)))
  {
    var id := Render(req.claimId);
    var front, rest := MasterReported + id + ProductPart(req), " yra išspręsta." + PleaseClose + ReviewIntro;
    assert ResolvedQualityMail(req).subject == QualitySubject + ("#" + id) + "";
    ContainsInfix(QualitySubject, "#" + id, "");
    AppendAssoc(MasterReported + id + ProductPart(req), rest, ClaimViewLink(id));
    ContainsInfix(MasterReported + id, ProductPart(req), rest + ClaimViewLink(id));
    assert ResolvedQualityMail(req).text == front + rest + ClaimViewLink(id) + "";
    ContainsInfix(front + rest, ClaimViewLink(id), "");
  }

  // ---------------------------------------------------------------------
  // /notify-status-change (server.js:245-271)

  datatype StatusRequest = StatusRequest(
    claimId: Field, customerEmail: Field, customerName: Field, status: Field)

  function StatusMail(req: StatusRequest): Mail {
    var t := StatusChange(req.claimId, req.customerName, req.status);
    Mail(Address(req.customerEmail), t.subject, t.body)
  }

  method NotifyStatusChange(mailer: Mailer, req: StatusRequest) returns (reply: Reply)
    modifies mailer
    ensures Dispatched(old(mailer.outbox), mailer.outbox, StatusMail(req), reply)
    ensures !req.customerEmail.Str? ==> reply == SendFailed
  {
    reply := mailer.Dispatch(StatusMail(req));
  }
}

/**
 Properties relating several runs of the Texting Duncan handlers: what the
 response does not depend on, which inputs give the same outcome, and the
 worked scenarios the handlers are meant to produce.
 */
module TextingDuncanProperties {
  import opened PyValues
  import PySets
  import opened TextingDuncan

  // ------------------------------------------------------------ direct send

  /** The echoed number and body, and the call made, do not depend on the gateway. */
  lemma SendSmsEchoIndependentOfGateway(p: SendSmsPayload, g1: Gateway, g2: Gateway)
    ensures SendSmsHandler(p, g1).calls == SendSmsHandler(p, g2).calls
    ensures SendSmsHandler(p, g1).response.(success := false)
         == SendSmsHandler(p, g2).response.(success := false)
  {
  }

  /** A gateway that reports "sent" yields a successful echo of the request. */
  lemma SendSmsScenario()
    ensures
      var p := SendSmsPayload("+15551234567", "Hello");
      SendSmsHandler(p, (to, body) => PBool(true)).response
        == SendSmsResponse(true, "+15551234567", "Hello")
  {
  }

  /** A gateway that returns a falsy value other than False still means "not sent". */
  lemma SendSmsFalsyGatewayFails(p: SendSmsPayload, gateway: Gateway)
    requires gateway(p.toNumber, p.smsBody) in FalsyValues
    ensures !SendSmsHandler(p, gateway).response.success
  {
    FalsyIffListed(gateway(p.toNumber, p.smsBody));
  }

  // ----------------------------------------------------------- note created

  /**
   Two `resourceIds` lists that collapse to the same set (one re-orders the
   other or repeats some of its ids) allow the same choices, and a choice
   yields the same response for both.
   */
  lemma NoteCreatedDependsOnlyOnIdSet(
    ids: seq<NoteId>, ids': seq<NoteId>, chosen: NoteId, service: NoteService)
    requires PySets.Collapse(ids) == PySets.Collapse(ids')
    requires |ids| > 0 ==> chosen in ids
    ensures |ids'| > 0 ==> chosen in ids'
    ensures ShapeNoteCreated(ids, chosen, service) == ShapeNoteCreated(ids', chosen, service)
  {
    if |ids| > 0 {
      assert ids[0] in PySets.Collapse(ids');
      assert chosen in PySets.Collapse(ids');
    }
    ShapeNoteCreatedDependsOnChoiceOnly(ids, ids', chosen, service);
  }

  lemma ShapeNoteCreatedDependsOnChoiceOnly(
    ids: seq<NoteId>, ids': seq<NoteId>, chosen: NoteId, service: NoteService)
    requires |ids| > 0 <==> |ids'| > 0
    requires |ids| > 0 ==> chosen in ids && chosen in ids'
    ensures ShapeNoteCreated(ids, chosen, service) == ShapeNoteCreated(ids', chosen, service)
  {
  }

  /** When all ids are the same id, the unspecified choice makes no difference. */
  lemma NoteCreatedSingleIdDeterministic(
    ids: seq<NoteId>, c1: NoteId, c2: NoteId, service: NoteService)
    requires |PySets.Collapse(ids)| == 1
    requires c1 in ids && c2 in ids
    ensures c1 == c2
    ensures ShapeNoteCreated(ids, c1, service) == ShapeNoteCreated(ids, c2, service)
  {
    var s := PySets.Collapse(ids);
    if c1 != c2 {
      assert {c1, c2} <= s;
      assert |{c1, c2}| == 2;
      PySets.SubsetCardinality({c1, c2}, s);
      assert false;
    }
  }

  /** The note service decides: "sms_sent": false surfaces as an unsuccessful response. */
  lemma NoteCreatedScenario(chosen: NoteId)
    requires chosen in [30189]
    ensures
      var result := map[SmsSentKey := PBool(false), "reason" := PStr("no-phone")];
      var h := ShapeNoteCreated([30189], chosen, id => result);
      && h.calls == [FubNoteCreated(30189)]
      && h.response == NoteCreatedResponse(PBool(false), result)
  {
  }

  /** A result without "sms_sent" is reported as unsuccessful, whatever else it holds. */
  lemma NoteCreatedMissingFlagIsFailure(ids: seq<NoteId>, chosen: NoteId, service: NoteService)
    requires |ids| > 0 ==> chosen in ids
    requires SmsSentKey !in service(chosen)
    ensures ShapeNoteCreated(ids, chosen, service).response.success == PBool(false)
  {
  }

  // ---------------------------------------------------------------- MailWizz

  /** The payload that spells out every personalization key of `a`. */
  function ExplicitPayload(a: CampaignArgs): MailWizzPayload {
    MailWizzPayload(a.campaignSpecialId, a.toPhoneNumber, a.campaignDay,
                    Present(a.jerkRealtorName), Present(a.tmName), Present(a.mls))
  }

  /** Present values are forwarded unchanged: spelling out arguments gives them back. */
  lemma CampaignArgsRoundTrip(a: CampaignArgs)
    ensures CampaignArgsOf(ExplicitPayload(a)) == a
  {
  }

  /** A payload with every key present is recovered from the arguments it yields. */
  lemma ExplicitPayloadRoundTrip(p: MailWizzPayload)
    requires p.jerkRealtorName.Present? && p.tmName.Present? && p.mls.Present?
    ensures ExplicitPayload(CampaignArgsOf(p)) == p
  {
  }

  /** Omitting a key is the same as sending its default value. */
  lemma AbsentKeyEqualsExplicitDefault(p: MailWizzPayload, service: CampaignService)
    ensures
      var p' := p.(jerkRealtorName := Present(p.jerkRealtorName.GetOr(DefaultJerkRealtorName)),
                   tmName := Present(p.tmName.GetOr(DefaultTmName)),
                   mls := Present(p.mls.GetOr(DefaultMls)));
      MailWizzHandler(p, service) == MailWizzHandler(p', service)
  {
  }

  /** The one call made does not depend on what the campaign service returns. */
  lemma MailWizzCallIndependentOfOutcome(p: MailWizzPayload, s1: CampaignService, s2: CampaignService)
    ensures MailWizzHandler(p, s1).calls == MailWizzHandler(p, s2).calls
  {
  }

  /** With every personalization key omitted, the service sees the three defaults. */
  lemma MailWizzScenario()
    ensures
      var p := MailWizzPayload("X", "+1555", 2, Absent, Absent, Absent);
      var template := PStr("Hi from Realtor");
      var h := MailWizzHandler(p, a => template);
      && h.calls == [SendMailwizzCampaignSms(
           CampaignArgs("X", "+1555", 2, "Realtor", "Willow Graznow", "N/A"))]
      && h.response == MailWizzResponse(true, template)
  {
  }

  /** A falsy service result, such as an empty template, leaves the response unsuccessful. */
  lemma MailWizzFalsyResultFails(p: MailWizzPayload, service: CampaignService)
    requires service(CampaignArgsOf(p)) in FalsyValues
    ensures MailWizzHandler(p, service).response == MailWizzResponse(false, PNone)
  {
    FalsyIffListed(service(CampaignArgsOf(p)));
  }

  // ---------------------------------------------------------------- all paths

  /** Each handler calls at most one service, and only the service of its own route. */
  lemma AtMostOneCallPerEvent(
    sp: SendSmsPayload, g: Gateway,
    ids: seq<NoteId>, chosen: NoteId, ns: NoteService,
    mp: MailWizzPayload, cs: CampaignService)
    requires |ids| > 0 ==> chosen in ids
    ensures |SendSmsHandler(sp, g).calls| == 1 && SendSmsHandler(sp, g).calls[0].SendSms?
    ensures |ShapeNoteCreated(ids, chosen, ns).calls| <= 1
    ensures forall c :: c in ShapeNoteCreated(ids, chosen, ns).calls ==> c.FubNoteCreated?
    ensures |MailWizzHandler(mp, cs).calls| == 1
    ensures MailWizzHandler(mp, cs).calls[0].SendMailwizzCampaignSms?
  {
  }
}

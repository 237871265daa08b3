/**
 The three SMS webhook handlers of the Texting Duncan router: a direct send,
 a FollowUpBoss "note created" event and a MailWizz campaign trigger.

 The services they call (the SMS gateway, the note processor, the campaign
 template sender) are not modelled: each is a function parameter standing
 for the service's result, limited to the shapes `PyValue` and `Dict` can
 express. Every handler returns, next to its response record, the log of
 the service calls it made.
 */
module TextingDuncan {
  import opened PyValues
  import PySets

  /** FollowUpBoss resource ids are integers (e.g. 30189). */
  type NoteId = int

  /** The six arguments of the campaign service, in call order. */
  datatype CampaignArgs = CampaignArgs(
    campaignSpecialId: string,
    toPhoneNumber: string,
    campaignDay: int,
    jerkRealtorName: string,
    tmName: string,
    mls: string)

  /** One call into a collaborator service. */
  datatype Call =
    | SendSms(toNumber: string, smsBody: string)
    | FubNoteCreated(noteId: NoteId)
    | SendMailwizzCampaignSms(args: CampaignArgs)

  /** A handler's response together with the service calls it made. */
  datatype Handled<R> = Handled(response: R, calls: seq<Call>)

  // ---------------------------------------------------------------- payloads

  datatype SendSmsPayload = SendSmsPayload(toNumber: string, smsBody: string)

  datatype NoteCreatedPayload = NoteCreatedPayload(resourceIds: seq<NoteId>)

  /** An optional payload key: absent, or present with a value. */
  datatype Key<+T> = Absent | Present(value: T) {

    /** Python's `payload.get(key, default)` on this key. */
    function GetOr(default: T): T {
      match this
      case Present(v) => v
      case Absent => default
    }
  }

  /** The three personalization keys are optional. */
  datatype MailWizzPayload = MailWizzPayload(
    campaignSpecialId: string,
    toPhoneNumber: string,
    campaignDay: int,
    jerkRealtorName: Key<string>,
    tmName: Key<string>,
    mls: Key<string>)

  // --------------------------------------------------------------- responses

  datatype SendSmsResponse =
    SendSmsResponse(success: bool, toPhoneNumber: string, smsMessage: string)

  /** `success` is whatever the note service put under "sms_sent". */
  datatype NoteCreatedResponse = NoteCreatedResponse(success: PyValue, data: Dict)

  datatype MailWizzResponse = MailWizzResponse(success: bool, smsTemplate: PyValue)

  // ------------------------------------------------------------ collaborators

  /** The SMS gateway: the value `send_sms(to_number, sms_body)` returns. */
  type Gateway = (string, string) -> PyValue

  /** The note processor: the result dict of `fub_note_created(note_id)`. */
  type NoteService = NoteId -> Dict

  /** The campaign sender: the value `send_mailwizz_campaign_sms(...)` returns. */
  type CampaignService = CampaignArgs -> PyValue

  // ------------------------------------------------------------- constants

  const DefaultJerkRealtorName := "Realtor"
  const DefaultTmName := "Willow Graznow"
  const DefaultMls := "N/A"

  /** The key of the note service's result that reports whether a text went out. */
  const SmsSentKey := "sms_sent"

  // ------------------------------------------------------------ direct send

  /** Sends one SMS through the gateway and echoes the request back. */
  function SendSmsHandler(p: SendSmsPayload, gateway: Gateway): (h: Handled<SendSmsResponse>)
    ensures h.calls == [SendSms(p.toNumber, p.smsBody)]
    ensures h.response.success <==> Truthy(gateway(p.toNumber, p.smsBody))
    ensures h.response.toPhoneNumber == p.toNumber
    ensures h.response.smsMessage == p.smsBody
  {
    var isSent := gateway(p.toNumber, p.smsBody);
    var result := SendSmsResponse(false, p.toNumber, p.smsBody);
    Handled(if Truthy(isSent) then result.(success := true) else result,
            [SendSms(p.toNumber, p.smsBody)])
  }

  // ----------------------------------------------------------- note created

  /**
   The note-created handler once the note id has been chosen: `chosen` is the
   element `list(set(resourceIds))[-1]` happened to yield, and is ignored when
   there are no ids.
   */
  function ShapeNoteCreated(ids: seq<NoteId>, chosen: NoteId, service: NoteService)
    : (h: Handled<NoteCreatedResponse>)
    requires |ids| > 0 ==> chosen in ids
    ensures |ids| == 0 ==> h.calls == [] && h.response.data == map[]
    ensures |ids| > 0 ==> h.calls == [FubNoteCreated(chosen)] && h.response.data == service(chosen)
    ensures SmsSentKey in h.response.data ==> h.response.success == h.response.data[SmsSentKey]
    ensures SmsSentKey !in h.response.data ==> h.response.success == PBool(false)
  {
    var result: Dict := if |ids| > 0 then service(chosen) else map[];
    var calls := if |ids| > 0 then [FubNoteCreated(chosen)] else [];
    Handled(NoteCreatedResponse(Get(result, SmsSentKey, PBool(false)), result), calls)
  }

  /**
   The note-created handler: collapses the ids to a set, enumerates it in an
   unspecified order and processes the last id of that enumeration.
   */
  method FubNoteCreatedHandler(p: NoteCreatedPayload, service: NoteService)
    returns (h: Handled<NoteCreatedResponse>)
    ensures |p.resourceIds| == 0 ==>
      h.calls == [] && h.response == NoteCreatedResponse(PBool(false), map[])
    ensures |p.resourceIds| > 0 ==>
      && |h.calls| == 1
      && h.calls[0].FubNoteCreated?
      && h.calls[0].noteId in p.resourceIds
      && h.response.data == service(h.calls[0].noteId)
      && h == ShapeNoteCreated(p.resourceIds, h.calls[0].noteId, service)
    ensures SmsSentKey in h.response.data ==> h.response.success == h.response.data[SmsSentKey]
    ensures SmsSentKey !in h.response.data ==> h.response.success == PBool(false)
  {
    var chosen: NoteId := 0;
    if |p.resourceIds| > 0 {
      var unique := PySets.Enumerate(PySets.Collapse(p.resourceIds));
      chosen := unique[|unique| - 1];
    }
    h := ShapeNoteCreated(p.resourceIds, chosen, service);
  }

  // ---------------------------------------------------------------- MailWizz

  /** The campaign service's arguments, with absent personalization keys defaulted. */
  function CampaignArgsOf(p: MailWizzPayload): (a: CampaignArgs)
    ensures a.campaignSpecialId == p.campaignSpecialId
    ensures a.toPhoneNumber == p.toPhoneNumber
    ensures a.campaignDay == p.campaignDay
    ensures p.jerkRealtorName.Absent? ==> a.jerkRealtorName == DefaultJerkRealtorName
    ensures p.jerkRealtorName.Present? ==> a.jerkRealtorName == p.jerkRealtorName.value
    ensures p.tmName.Absent? ==> a.tmName == DefaultTmName
    ensures p.tmName.Present? ==> a.tmName == p.tmName.value
    ensures p.mls.Absent? ==> a.mls == DefaultMls
    ensures p.mls.Present? ==> a.mls == p.mls.value
  {
    CampaignArgs(
      p.campaignSpecialId,
      p.toPhoneNumber,
      p.campaignDay,
      p.jerkRealtorName.GetOr(DefaultJerkRealtorName),
      p.tmName.GetOr(DefaultTmName),
      p.mls.GetOr(DefaultMls))
  }

  /** Calls the campaign service once and reports its result when truthy. */
  function MailWizzHandler(p: MailWizzPayload, service: CampaignService)
    : (h: Handled<MailWizzResponse>)
    ensures h.calls == [SendMailwizzCampaignSms(CampaignArgsOf(p))]
    ensures h.response.success <==> Truthy(service(CampaignArgsOf(p)))
    ensures h.response.success ==> h.response.smsTemplate == service(CampaignArgsOf(p))
    ensures !h.response.success ==> h.response.smsTemplate == PNone
  {
    var args := CampaignArgsOf(p);
    var serviceResult := service(args);
    var result := MailWizzResponse(false, PNone);
    Handled(if Truthy(serviceResult) then MailWizzResponse(true, serviceResult) else result,
            [SendMailwizzCampaignSms(args)])
  }
}

/** The inbound objects of WXApi/WXApi/event.py:27-211: a message or event is
    built from the flat tag-to-text mapping of one webhook payload, and every
    constructor re-checks its discriminator. Python's exceptions become `Err`
    values: a missing key (KeyError), a method called on an empty element's
    `None` text (AttributeError) and a failed `assert`. */
module Inbound {
  import opened Common

  /** Each child tag of the payload's `<xml>` root and its text; an empty
      element has no text. */
  type Fields = map<string, Option<string>>

  datatype Error =
    | MissingKey(key: string)           // KeyError from `msg[key]`
    | NoText(key: string)               // AttributeError: the element's text is None
    | AssertionFailed(expected: string) // a constructor's `assert`
    | UnknownMessageType                // xml2event: MsgId present, MsgType unknown
    | UnsupportedEventType              // xml2event: MsgType 'event', Event unknown
    | UnknownMessageOrEvent             // xml2event: no MsgId and MsgType not 'event'
    | MalformedXml                      // xml2json: the payload does not parse

  /** `msg[key]` */
  function Get(f: Fields, key: string): (r: Result<Option<string>, Error>)
    ensures r.Ok? <==> key in f
    ensures r.Ok? ==> r.value == f[key]
  {
    if key in f then Ok(f[key]) else Err(MissingKey(key))
  }

  /** `msg.get(key)`: no text both when the key is missing and when its element
      is empty. */
  function GetOpt(f: Fields, key: string): Option<string>
  {
    if key in f then f[key] else None
  }

  /** `text.lower()`, which fails on `None`. */
  function LowerText(key: string, text: Option<string>): (r: Result<string, Error>)
    ensures r.Ok? <==> text.Some?
    ensures r.Ok? ==> r.value == Lower(text.value)
  {
    if text.None? then Err(NoText(key)) else Ok(Lower(text.value))
  }


  // ---------------------------------------------------------------------------
  // The objects.

  /** The fields every inbound object copies: `from_id`, `to_id`, `time`. */
  datatype Envelope = Envelope(fromId: Option<string>, toId: Option<string>, time: Option<string>)

  datatype Inbound =
    | TextMsg(env: Envelope, messageId: Option<string>, content: Option<string>)
    | ImageMsg(env: Envelope, messageId: Option<string>, mediaId: Option<string>, imageLink: Option<string>)
    | VoiceMsg(env: Envelope, messageId: Option<string>, mediaId: Option<string>, format: Option<string>,
               recognition: Option<string>)
    | VideoMsg(env: Envelope, messageId: Option<string>, mediaId: Option<string>, thumbMediaId: Option<string>)
    | LocationMsg(env: Envelope, messageId: Option<string>, x: Option<string>, y: Option<string>,
                  scale: Option<string>, locationLabel: Option<string>)
    | LinkMsg(env: Envelope, messageId: Option<string>, title: Option<string>, description: Option<string>,
              link: Option<string>)
    | SubEvent(env: Envelope, eventKey: Option<string>, ticket: Option<string>)
    | UnSubEvent(env: Envelope)
    | ScanEvent(env: Envelope, eventKey: Option<string>, ticket: Option<string>)
    | ClickEvent(env: Envelope, eventKey: Option<string>)
    | ViewEvent(env: Envelope, eventKey: Option<string>)
    | LocationEvent(env: Envelope, x: Option<string>, y: Option<string>, scale: Option<string>)
  {
    predicate IsMessage() {
      TextMsg? || ImageMsg? || VoiceMsg? || VideoMsg? || LocationMsg? || LinkMsg?
    }

    /** The stored `type` of a message: its lower-cased `MsgType`, which the
        constructor has checked against the variant's tag. */
    function Type(): string
      requires IsMessage()
    {
      match this
      case TextMsg(_, _, _) => "text"
      case ImageMsg(_, _, _, _) => "image"
      case VoiceMsg(_, _, _, _, _) => "voice"
      case VideoMsg(_, _, _, _) => "video"
      case LocationMsg(_, _, _, _, _, _) => "location"
      case LinkMsg(_, _, _, _, _) => "link"
    }

    /** The stored `event` of an event: its lower-cased `Event`. */
    function EventName(): string
      requires !IsMessage()
    {
      match this
      case SubEvent(_, _, _) => "subscribe"
      case UnSubEvent(_) => "unsubscribe"
      case ScanEvent(_, _, _) => "scan"
      case ClickEvent(_, _) => "click"
      case ViewEvent(_, _) => "view"
      case LocationEvent(_, _, _, _) => "location"
    }
  }

  /** `WeChatMsg.__eq__` and `__contains__`: two messages are the same message
      when their ids agree, whatever else they hold. */
  predicate SameMessage(a: Inbound, b: Inbound)
    requires a.IsMessage() && b.IsMessage()
  {
    a.messageId == b.messageId
  }

  // ---------------------------------------------------------------------------
  // The base constructors.

  predicate HasEnvelopeKeys(f: Fields) {
    "FromUserName" in f && "ToUserName" in f && "CreateTime" in f
  }

  predicate HasMessageKeys(f: Fields) {
    HasEnvelopeKeys(f) && "MsgType" in f && "MsgId" in f
  }

  predicate HasEventKeys(f: Fields) {
    HasEnvelopeKeys(f) && "MsgType" in f && "Event" in f
  }

  /** The envelope copied out of a payload that has its three keys. */
  function EnvelopeOf(f: Fields): Envelope
    requires HasEnvelopeKeys(f)
  {
    Envelope(f["FromUserName"], f["ToUserName"], f["CreateTime"])
  }

  /** `WeChatObject.__init__` */
  function NewObject(f: Fields): (r: Result<Envelope, Error>)
    ensures r.Ok? <==> HasEnvelopeKeys(f)
    ensures r.Ok? ==> r.value == EnvelopeOf(f)
  {
    var fromId :- Get(f, "FromUserName");
    var toId :- Get(f, "ToUserName");
    var time :- Get(f, "CreateTime");
    Ok(Envelope(fromId, toId, time))
  }

  datatype MsgHead = MsgHead(env: Envelope, msgType: string, messageId: Option<string>)

  /** `WeChatMsg.__init__`: the envelope, the lower-cased `MsgType`, the `MsgId`. */
  function NewMsgHead(f: Fields): (r: Result<MsgHead, Error>)
    ensures r.Ok? <==> HasMessageKeys(f) && f["MsgType"].Some?
    ensures r.Ok? ==> r.value == MsgHead(EnvelopeOf(f), Lower(f["MsgType"].value), f["MsgId"])
  {
    var env :- NewObject(f);
    var raw :- Get(f, "MsgType");
    var msgType :- LowerText("MsgType", raw);
    var messageId :- Get(f, "MsgId");
    Ok(MsgHead(env, msgType, messageId))
  }

  /** `WeChatEvent.__init__`: the envelope, the check that `MsgType` is exactly
      'event', the lower-cased `Event`. */
  function NewEventHead(f: Fields): (r: Result<(Envelope, string), Error>)
    ensures r.Ok? <==> HasEventKeys(f) && f["MsgType"] == Some("event") && f["Event"].Some?
    ensures r.Ok? ==> r.value == (EnvelopeOf(f), Lower(f["Event"].value))
    ensures HasEnvelopeKeys(f) && "MsgType" in f && f["MsgType"] != Some("event") ==> r == Err(AssertionFailed("event"))
  {
    var env :- NewObject(f);
    var msgType :- Get(f, "MsgType");
    if msgType != Some("event") then Err(AssertionFailed("event"))
    else
      var raw :- Get(f, "Event");
      var event :- LowerText("Event", raw);
      Ok((env, event))
  }

  /** The payload is a message whose lower-cased type is `tag`. */
  predicate IsMessageOf(f: Fields, tag: string) {
    HasMessageKeys(f) && f["MsgType"].Some? && Lower(f["MsgType"].value) == tag
  }

  /** The payload is an event whose lower-cased name is `tag`. */
  predicate IsEventOf(f: Fields, tag: string) {
    HasEventKeys(f) && f["MsgType"] == Some("event") && f["Event"].Some? && Lower(f["Event"].value) == tag
  }

  // ---------------------------------------------------------------------------
  // Messages.

  function NewTextMsg(f: Fields): (r: Result<Inbound, Error>)
    ensures r.Ok? <==> IsMessageOf(f, "text") && "Content" in f
    ensures HasMessageKeys(f) && f["MsgType"].Some? && Lower(f["MsgType"].value) != "text"
            ==> r == Err(AssertionFailed("text"))
    ensures r.Ok? ==> r.value == TextMsg(EnvelopeOf(f), f["MsgId"], f["Content"])
  {
    var h :- NewMsgHead(f);
    if h.msgType != "text" then Err(AssertionFailed("text"))
    else
      var content :- Get(f, "Content");
      Ok(TextMsg(h.env, h.messageId, content))
  }

  /** `WeChatMedia.__init__` adds the `MediaId`, read before the subclass checks
      its tag. */
  function NewMediaHead(f: Fields): (r: Result<(MsgHead, Option<string>), Error>)
    ensures r.Ok? <==> HasMessageKeys(f) && "MediaId" in f && f["MsgType"].Some?
    ensures r.Ok? ==> r.value == (MsgHead(EnvelopeOf(f), Lower(f["MsgType"].value), f["MsgId"]), f["MediaId"])
  {
    var h :- NewMsgHead(f);
    var mediaId :- Get(f, "MediaId");
    Ok((h, mediaId))
  }

  function NewVoiceMsg(f: Fields): (r: Result<Inbound, Error>)
    ensures r.Ok? <==> IsMessageOf(f, "voice") && "MediaId" in f && "Format" in f
    ensures HasMessageKeys(f) && "MediaId" in f && f["MsgType"].Some? && Lower(f["MsgType"].value) != "voice"
            ==> r == Err(AssertionFailed("voice"))
    ensures r.Ok? ==> r.value == VoiceMsg(EnvelopeOf(f), f["MsgId"], f["MediaId"], f["Format"], GetOpt(f, "Recognition"))
  {
    var (h, mediaId) :- NewMediaHead(f);
    if h.msgType != "voice" then Err(AssertionFailed("voice"))
    else
      var format :- Get(f, "Format");
      Ok(VoiceMsg(h.env, h.messageId, mediaId, format, GetOpt(f, "Recognition")))
  }

  function NewVideoMsg(f: Fields): (r: Result<Inbound, Error>)
    ensures r.Ok? <==> IsMessageOf(f, "video") && "MediaId" in f && "ThumbMediaId" in f
    ensures HasMessageKeys(f) && "MediaId" in f && f["MsgType"].Some? && Lower(f["MsgType"].value) != "video"
            ==> r == Err(AssertionFailed("video"))
    ensures r.Ok? ==> r.value == VideoMsg(EnvelopeOf(f), f["MsgId"], f["MediaId"], f["ThumbMediaId"])
  {
    var (h, mediaId) :- NewMediaHead(f);
    if h.msgType != "video" then Err(AssertionFailed("video"))
    else
      var thumb :- Get(f, "ThumbMediaId");
      Ok(VideoMsg(h.env, h.messageId, mediaId, thumb))
  }

  function NewImageMsg(f: Fields): (r: Result<Inbound, Error>)
    ensures r.Ok? <==> IsMessageOf(f, "image") && "MediaId" in f && "PicUrl" in f
    ensures HasMessageKeys(f) && "MediaId" in f && f["MsgType"].Some? && Lower(f["MsgType"].value) != "image"
            ==> r == Err(AssertionFailed("image"))
    ensures r.Ok? ==> r.value == ImageMsg(EnvelopeOf(f), f["MsgId"], f["MediaId"], f["PicUrl"])
  {
    var (h, mediaId) :- NewMediaHead(f);
    if h.msgType != "image" then Err(AssertionFailed("image"))
    else
      var link :- Get(f, "PicUrl");
      Ok(ImageMsg(h.env, h.messageId, mediaId, link))
  }

  function NewLocationMsg(f: Fields): (r: Result<Inbound, Error>)
    ensures r.Ok? <==> IsMessageOf(f, "location") && ("Location_X" in f && "Location_Y" in f && "Scale" in f && "Label" in f)
    ensures HasMessageKeys(f) && f["MsgType"].Some? && Lower(f["MsgType"].value) != "location"
            ==> r == Err(AssertionFailed("location"))
    ensures r.Ok? ==> r.value == LocationMsg(EnvelopeOf(f), f["MsgId"], f["Location_X"], f["Location_Y"],
                                             f["Scale"], f["Label"])
  {
    var h :- NewMsgHead(f);
    if h.msgType != "location" then Err(AssertionFailed("location"))
    else
      var x :- Get(f, "Location_X");
      var y :- Get(f, "Location_Y");
      var scale :- Get(f, "Scale");
      var locationLabel :- Get(f, "Label");
      Ok(LocationMsg(h.env, h.messageId, x, y, scale, locationLabel))
  }

  function NewLinkMsg(f: Fields): (r: Result<Inbound, Error>)
    ensures r.Ok? <==> IsMessageOf(f, "link") && ("Title" in f && "Description" in f && "Url" in f)
    ensures HasMessageKeys(f) && f["MsgType"].Some? && Lower(f["MsgType"].value) != "link"
            ==> r == Err(AssertionFailed("link"))
    ensures r.Ok? ==> r.value == LinkMsg(EnvelopeOf(f), f["MsgId"], f["Title"], f["Description"], f["Url"])
  {
    var h :- NewMsgHead(f);
    if h.msgType != "link" then Err(AssertionFailed("link"))
    else
      var title :- Get(f, "Title");
      var description :- Get(f, "Description");
      var link :- Get(f, "Url");
      Ok(LinkMsg(h.env, h.messageId, title, description, link))
  }

  // ---------------------------------------------------------------------------
  // Events.

  /** A subscription through a QR code carries an `EventKey`; its `Ticket` must
      then start with the scene prefix. */
  predicate TicketOk(f: Fields) {
    GetOpt(f, "EventKey").Some? ==> GetOpt(f, "Ticket").Some? && StartsWith(GetOpt(f, "Ticket").value, "qrscene_")
  }

  function NewSubEvent(f: Fields): (r: Result<Inbound, Error>)
    ensures r.Ok? <==> IsEventOf(f, "subscribe") && TicketOk(f)
    ensures (IsEventOf(f, "subscribe") && GetOpt(f, "EventKey").Some? && GetOpt(f, "Ticket").Some?
             && !StartsWith(GetOpt(f, "Ticket").value, "qrscene_")) ==> r == Err(AssertionFailed("qrscene_"))
    ensures r.Ok? ==> r.value == SubEvent(EnvelopeOf(f), GetOpt(f, "EventKey"), GetOpt(f, "Ticket"))
  {
    var (env, event) :- NewEventHead(f);
    if event != "subscribe" then Err(AssertionFailed("subscribe"))
    else
      var key, ticket := GetOpt(f, "EventKey"), GetOpt(f, "Ticket");
      if key.Some? && ticket.None? then Err(NoText("Ticket"))
      else if key.Some? && !StartsWith(ticket.value, "qrscene_") then Err(AssertionFailed("qrscene_"))
      else Ok(SubEvent(env, key, ticket))
  }

  function NewUnSubEvent(f: Fields): (r: Result<Inbound, Error>)
    ensures r.Ok? <==> IsEventOf(f, "unsubscribe")
    ensures r.Ok? ==> r.value == UnSubEvent(EnvelopeOf(f))
  {
    var (env, event) :- NewEventHead(f);
    if event != "unsubscribe" then Err(AssertionFailed("unsubscribe"))
    else Ok(UnSubEvent(env))
  }

  function NewScanEvent(f: Fields): (r: Result<Inbound, Error>)
    ensures r.Ok? <==> IsEventOf(f, "scan") && "EventKey" in f && "Ticket" in f
    ensures r.Ok? ==> r.value == ScanEvent(EnvelopeOf(f), f["EventKey"], f["Ticket"])
  {
    var (env, event) :- NewEventHead(f);
    if event != "scan" then Err(AssertionFailed("scan"))
    else
      var key :- Get(f, "EventKey");
      var ticket :- Get(f, "Ticket");
      Ok(ScanEvent(env, key, ticket))
  }

  function NewClickEvent(f: Fields): (r: Result<Inbound, Error>)
    ensures r.Ok? <==> IsEventOf(f, "click") && "EventKey" in f
    ensures r.Ok? ==> r.value == ClickEvent(EnvelopeOf(f), f["EventKey"])
  {
    var (env, event) :- NewEventHead(f);
    if event != "click" then Err(AssertionFailed("click"))
    else
      var key :- Get(f, "EventKey");
      Ok(ClickEvent(env, key))
  }

  function NewViewEvent(f: Fields): (r: Result<Inbound, Error>)
    ensures r.Ok? <==> IsEventOf(f, "view") && "EventKey" in f
    ensures r.Ok? ==> r.value == ViewEvent(EnvelopeOf(f), f["EventKey"])
  {
    var (env, event) :- NewEventHead(f);
    if event != "view" then Err(AssertionFailed("view"))
    else
      var key :- Get(f, "EventKey");
      Ok(ViewEvent(env, key))
  }

  function NewLocationEvent(f: Fields): (r: Result<Inbound, Error>)
    ensures r.Ok? <==> IsEventOf(f, "location") && ("Latitude" in f && "Longitude" in f && "Precision" in f)
    ensures r.Ok? ==> r.value == LocationEvent(EnvelopeOf(f), f["Latitude"], f["Longitude"], f["Precision"])
  {
    var (env, event) :- NewEventHead(f);
    if event != "location" then Err(AssertionFailed("location"))
    else
      var x :- Get(f, "Latitude");
      var y :- Get(f, "Longitude");
      var scale :- Get(f, "Precision");
      Ok(LocationEvent(env, x, y, scale))
  }

  // ---------------------------------------------------------------------------
  // Account-certification events: built by their constructors only, never by
  // the dispatcher. Two of them check another event's name.

  datatype Certification =
    | QualificationSuccess(env: Envelope, validDate: Option<string>)
    | QualificationFailed(env: Envelope, validDate: Option<string>, failTime: Option<string>, failReason: Option<string>)
    | NamingSuccess(env: Envelope, validDate: Option<string>)
    | NamingFailed(env: Envelope, validDate: Option<string>, failTime: Option<string>, failReason: Option<string>)
    | AnnualRenew(env: Envelope, validDate: Option<string>)
    | VerifyExpired(env: Envelope, validDate: Option<string>)

  /** `QASuccessEvent` */
  function NewQASuccessEvent(f: Fields): (r: Result<Certification, Error>)
    ensures r.Ok? <==> IsEventOf(f, "qualification_verify_success") && "ExpiredTime" in f
    ensures r.Ok? ==> r.value == QualificationSuccess(EnvelopeOf(f), f["ExpiredTime"])
  {
    var (env, event) :- NewEventHead(f);
    if event != "qualification_verify_success" then Err(AssertionFailed("qualification_verify_success"))
    else
      var date :- Get(f, "ExpiredTime");
      Ok(QualificationSuccess(env, date))
  }

  /** `QAFailedEvent`: checks for the success event's name, and reads its date
      from a key named after the failure event. */
  function NewQAFailedEvent(f: Fields): (r: Result<Certification, Error>)
    ensures r.Ok? <==> IsEventOf(f, "qualification_verify_success")
                       && ("qualification_verify_fail" in f && "FailTime" in f && "FailReason" in f)
    ensures r.Ok? ==> r.value == QualificationFailed(EnvelopeOf(f), f["qualification_verify_fail"],
                                                     f["FailTime"], f["FailReason"])
  {
    var (env, event) :- NewEventHead(f);
    if event != "qualification_verify_success" then Err(AssertionFailed("qualification_verify_success"))
    else
      var date :- Get(f, "qualification_verify_fail");
      var time :- Get(f, "FailTime");
      var reason :- Get(f, "FailReason");
      Ok(QualificationFailed(env, date, time, reason))
  }

  /** `NamingSuccessEvent`: checks for the qualification failure's name. */
  function NewNamingSuccessEvent(f: Fields): (r: Result<Certification, Error>)
    ensures r.Ok? <==> IsEventOf(f, "qualification_verify_fail") && "ExpiredTime" in f
    ensures r.Ok? ==> r.value == NamingSuccess(EnvelopeOf(f), f["ExpiredTime"])
  {
    var (env, event) :- NewEventHead(f);
    if event != "qualification_verify_fail" then Err(AssertionFailed("qualification_verify_fail"))
    else
      var date :- Get(f, "ExpiredTime");
      Ok(NamingSuccess(env, date))
  }

  /** `NamingFailedEvent` */
  function NewNamingFailedEvent(f: Fields): (r: Result<Certification, Error>)
    ensures r.Ok? <==> IsEventOf(f, "naming_verify_fail")
                       && ("qualification_verify_fail" in f && "FailTime" in f && "FailReason" in f)
    ensures r.Ok? ==> r.value == NamingFailed(EnvelopeOf(f), f["qualification_verify_fail"],
                                              f["FailTime"], f["FailReason"])
  {
    var (env, event) :- NewEventHead(f);
    if event != "naming_verify_fail" then Err(AssertionFailed("naming_verify_fail"))
    else
      var date :- Get(f, "qualification_verify_fail");
      var time :- Get(f, "FailTime");
      var reason :- Get(f, "FailReason");
      Ok(NamingFailed(env, date, time, reason))
  }

  /** `RemindEvent` */
  function NewRemindEvent(f: Fields): (r: Result<Certification, Error>)
    ensures r.Ok? <==> IsEventOf(f, "annual_renew") && "ExpiredTime" in f
    ensures r.Ok? ==> r.value == AnnualRenew(EnvelopeOf(f), f["ExpiredTime"])
  {
    var (env, event) :- NewEventHead(f);
    if event != "annual_renew" then Err(AssertionFailed("annual_renew"))
    else
      var date :- Get(f, "ExpiredTime");
      Ok(AnnualRenew(env, date))
  }

  /** `NotifyEvent` */
  function NewNotifyEvent(f: Fields): (r: Result<Certification, Error>)
    ensures r.Ok? <==> IsEventOf(f, "verify_expired") && "ExpiredTime" in f
    ensures r.Ok? ==> r.value == VerifyExpired(EnvelopeOf(f), f["ExpiredTime"])
  {
    var (env, event) :- NewEventHead(f);
    if event != "verify_expired" then Err(AssertionFailed("verify_expired"))
    else
      var date :- Get(f, "ExpiredTime");
      Ok(VerifyExpired(env, date))
  }

  /** The event name each certification object stands for. */
  function CertificationName(c: Certification): string {
    match c
    case QualificationSuccess(_, _) => "qualification_verify_success"
    case QualificationFailed(_, _, _, _) => "qualification_verify_fail"
    case NamingSuccess(_, _) => "naming_verify_success"
    case NamingFailed(_, _, _, _) => "naming_verify_fail"
    case AnnualRenew(_, _) => "annual_renew"
    case VerifyExpired(_, _) => "verify_expired"
  }

  /** As written, `QAFailedEvent` and `NamingSuccessEvent` only accept payloads
      of another event than the one they stand for, and refuse their own. */
  lemma CertificationTagsAsWritten(f: Fields)
    ensures NewQAFailedEvent(f).Ok? ==> CertificationName(NewQAFailedEvent(f).value) != Lower(f["Event"].value)
    ensures NewNamingSuccessEvent(f).Ok? ==> CertificationName(NewNamingSuccessEvent(f).value) != Lower(f["Event"].value)
    ensures IsEventOf(f, "qualification_verify_fail") ==> NewQAFailedEvent(f) == Err(AssertionFailed("qualification_verify_success"))
    ensures IsEventOf(f, "naming_verify_success") ==> NewNamingSuccessEvent(f) == Err(AssertionFailed("qualification_verify_fail"))
  {
  }

  /** `QAFailedEvent` checking the name of the event it stands for. */
  function NewQAFailedEventIntended(f: Fields): (r: Result<Certification, Error>)
    ensures r.Ok? <==> IsEventOf(f, "qualification_verify_fail")
                       && ("qualification_verify_fail" in f && "FailTime" in f && "FailReason" in f)
    ensures r.Ok? ==> r.value == QualificationFailed(EnvelopeOf(f), f["qualification_verify_fail"],
                                                     f["FailTime"], f["FailReason"])
  {
    var (env, event) :- NewEventHead(f);
    if event != "qualification_verify_fail" then Err(AssertionFailed("qualification_verify_fail"))
    else
      var date :- Get(f, "qualification_verify_fail");
      var time :- Get(f, "FailTime");
      var reason :- Get(f, "FailReason");
      Ok(QualificationFailed(env, date, time, reason))
  }

  /** `NamingSuccessEvent` checking the name of the event it stands for. */
  function NewNamingSuccessEventIntended(f: Fields): (r: Result<Certification, Error>)
    ensures r.Ok? <==> IsEventOf(f, "naming_verify_success") && "ExpiredTime" in f
    ensures r.Ok? ==> r.value == NamingSuccess(EnvelopeOf(f), f["ExpiredTime"])
  {
    var (env, event) :- NewEventHead(f);
    if event != "naming_verify_success" then Err(AssertionFailed("naming_verify_success"))
    else
      var date :- Get(f, "ExpiredTime");
      Ok(NamingSuccess(env, date))
  }

  /** With the two checks corrected, every certification constructor accepts
      exactly the payloads of its own event, so no payload builds two of them. */
  lemma CertificationTagsIntended(f: Fields)
    ensures NewQASuccessEvent(f).Ok? ==> CertificationName(NewQASuccessEvent(f).value) == Lower(f["Event"].value)
    ensures NewQAFailedEventIntended(f).Ok? ==> CertificationName(NewQAFailedEventIntended(f).value) == Lower(f["Event"].value)
    ensures NewNamingSuccessEventIntended(f).Ok? ==> CertificationName(NewNamingSuccessEventIntended(f).value) == Lower(f["Event"].value)
    ensures NewNamingFailedEvent(f).Ok? ==> CertificationName(NewNamingFailedEvent(f).value) == Lower(f["Event"].value)
    ensures NewRemindEvent(f).Ok? ==> CertificationName(NewRemindEvent(f).value) == Lower(f["Event"].value)
    ensures NewNotifyEvent(f).Ok? ==> CertificationName(NewNotifyEvent(f).value) == Lower(f["Event"].value)
  {
  }
}

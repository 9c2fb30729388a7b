# pyweipi core in Dafny

A model of the core of pyweipi, a Python SDK for the WeChat official-account
platform. It covers the parts that carry decisions rather than network glue:

- **Inbound payloads** (`inbound.dfy`, `utils.dfy`). A webhook delivers an XML
  document whose root children are flattened to a tag → text map (`xml2json`).
  `xml2event` picks one of twelve typed messages and events from `MsgId`,
  `MsgType` and `Event`. Each constructor copies the envelope
  (`FromUserName`, `ToUserName`, `CreateTime`) and re-checks its own tag.
  The six certification events, which are never dispatched, are modelled too.
  Python's `KeyError`, the `AttributeError` raised on a missing text and each
  failed `assert` become `Err` values.
- **Reply encoding** (`wechat_xml.dfy`, `replies.dfy`, `wire_format.dfy`). The
  `WeChatXML` object is a class whose node list grows in place and whose
  `__unicode__` loop renders six node shapes. The reply classes swap sender and
  recipient, add `MsgType` and append a body built per reply kind. A news reply
  keeps between one and eight articles. The rendered text is shown to be the
  serialization of a small element tree. Whenever no text holds the CDATA end
  marker `]]>`, a parser reads that serialization back as exactly the same tree.
  CDATA sections are those of section 2.7 of XML 1.0 (Fifth Edition).
- **Utilities** (`utils.dfy`, `string_order.dfy`). `url_decode` returns the
  whole query or an empty dict. `auth_signature` sorts token, timestamp and
  nonce and compares digests; SHA-1, `unhexlify`, `unquote` and the text codec
  are function parameters. Python's string order is modelled on code points, and
  the sort used is proved to yield a sorted permutation.
- **Menu builder** (`menu.dfy`). `WXMenu` is a class whose button list grows in
  place. It is modelled as written, with its cap and loop-variable quirks. The
  intended behaviour sits beside it (see Findings).
- **HTTP client rules** (`request.dfy`). These are the response classification,
  the `MPCenter` access-token cache (a class; the clock is a parameter), `update`,
  the QR-code parameter choice and the checks before a media upload.

Shared definitions are in `common.dfy`: `Option`/`Result`, ASCII lower-casing,
decimal rendering of integers, and tag helpers.

Where the source's own text promises something its code does not do, the
model follows the code. There are three places. The class docstrings at
`WXApi/WXApi/event.py:165-182` name events whose tags `QAFailedEvent` and
`NamingSuccessEvent` do not check. The "最多 3" (at most 3) messages in
`WXApi/WXApi/WXMenu.py` sit beside a menu that keeps copies of its first
button and accepts a fourth one. The error message built at
`WXApi/WXApi/request.py:105` is never shown, because adding the integer status
to it raises a `TypeError` (`Request.StatusTypeError`).

## Model

| member | source | states |
|---|---|---|
| Inbound.NewObject | WXApi/WXApi/event.py:27-32 | succeeds exactly when the three envelope keys are present, and then copies `FromUserName`, `ToUserName`, `CreateTime` unchanged |
| Inbound.NewMsgHead | WXApi/WXApi/event.py:35-39 | succeeds exactly when envelope, `MsgType` (with text) and `MsgId` are present; stores the lower-cased type and the id |
| Inbound.NewMediaHead | WXApi/WXApi/event.py:48-51 | a media message also needs `MediaId`, read before the subclass checks its tag |
| Inbound.NewEventHead | WXApi/WXApi/event.py:54-58 | fails unless `MsgType` is exactly `event`; stores the lower-cased `Event` |
| Inbound.NewTextMsg | WXApi/WXApi/event.py:61-65 | succeeds exactly for a text message with `Content`; any other lower-cased type is an assertion error; fields copied |
| Inbound.NewVoiceMsg | WXApi/WXApi/event.py:68-73 | as above for `voice`, needing `MediaId` and `Format`; `Recognition` may be absent |
| Inbound.NewVideoMsg | WXApi/WXApi/event.py:76-80 | as above for `video`, needing `MediaId` and `ThumbMediaId` |
| Inbound.NewImageMsg | WXApi/WXApi/event.py:83-87 | as above for `image`, needing `MediaId` and `PicUrl` |
| Inbound.NewLocationMsg | WXApi/WXApi/event.py:90-97 | as above for `location`, needing `Location_X`, `Location_Y`, `Scale`, `Label` |
| Inbound.NewLinkMsg | WXApi/WXApi/event.py:100-106 | as above for `link`, needing `Title`, `Description`, `Url` |
| Inbound.NewSubEvent | WXApi/WXApi/event.py:109-116 | succeeds exactly for a subscribe event whose `Ticket` starts with `qrscene_` whenever an `EventKey` is present; a wrong prefix is an assertion error |
| Inbound.NewUnSubEvent | WXApi/WXApi/event.py:119-122 | succeeds exactly for an unsubscribe event; the envelope is copied |
| Inbound.NewScanEvent | WXApi/WXApi/event.py:125-130 | succeeds exactly for a scan event carrying `EventKey` and `Ticket` |
| Inbound.NewClickEvent | WXApi/WXApi/event.py:133-137 | succeeds exactly for a click event carrying `EventKey` |
| Inbound.NewViewEvent | WXApi/WXApi/event.py:140-144 | succeeds exactly for a view event carrying `EventKey` |
| Inbound.NewLocationEvent | WXApi/WXApi/event.py:147-153 | succeeds exactly for a location event carrying `Latitude`, `Longitude`, `Precision` |
| Inbound.NewQASuccessEvent | WXApi/WXApi/event.py:156-162 | succeeds exactly for a `qualification_verify_success` event with `ExpiredTime` |
| Inbound.NewQAFailedEvent | WXApi/WXApi/event.py:165-173 | as written: accepts only a `qualification_verify_success` event, with the keys `qualification_verify_fail`, `FailTime` and `FailReason` |
| Inbound.NewNamingSuccessEvent | WXApi/WXApi/event.py:176-182 | as written: accepts only a `qualification_verify_fail` event, with `ExpiredTime` |
| Inbound.NewNamingFailedEvent | WXApi/WXApi/event.py:185-193 | succeeds exactly for a `naming_verify_fail` event with the keys `qualification_verify_fail`, `FailTime` and `FailReason` |
| Inbound.NewRemindEvent | WXApi/WXApi/event.py:196-202 | succeeds exactly for an `annual_renew` event with `ExpiredTime` |
| Inbound.NewNotifyEvent | WXApi/WXApi/event.py:205-211 | succeeds exactly for a `verify_expired` event with `ExpiredTime` |
| Inbound.CertificationTagsAsWritten | WXApi/WXApi/event.py:165-182 | the as-written QA-failed and naming-success constructors refuse their own event's payload and accept another event's |
| Inbound.NewQAFailedEventIntended | WXApi/WXApi/event.py:165-173 | with the intended tag: succeeds exactly for a `qualification_verify_fail` event |
| Inbound.NewNamingSuccessEventIntended | WXApi/WXApi/event.py:176-182 | with the intended tag: succeeds exactly for a `naming_verify_success` event |
| Inbound.CertificationTagsIntended | WXApi/WXApi/event.py:156-211 | with the intended tags, each of the six certification constructors accepts exactly its own event's payload |
| Utils.AssignLastWins | WXApi/WXApi/WXUtils.py:70-71 | a key is bound exactly when some entry carries it, to the value of the last such entry |
| Utils.Xml2Json | WXApi/WXApi/WXUtils.py:64-77 | a parse failure is an error; otherwise the result is the in-order update of the root's children |
| Utils.Xml2JsonFields | WXApi/WXApi/WXUtils.py:70-71 | every child tag is a key, holding the text of its last occurrence, and there are no other keys |
| Utils.Dispatch | WXApi/WXApi/WXUtils.py:85-126 | unknown `MsgType` with `MsgId`, unknown `Event`, and missing `MsgId` without `MsgType == 'event'` are errors; a result is a message exactly when `MsgId` is present, its type or event equals the exact tag, and its envelope is the payload's |
| Utils.DispatchSucceedsIff | WXApi/WXApi/WXUtils.py:85-126 | dispatch succeeds exactly on payloads whose exact tag is one of the twelve and that carry the keys that variant reads |
| Utils.DispatchedMessagesEqual | WXApi/WXApi/event.py:41-45 | two dispatched messages compare equal exactly when their `MsgId`s are equal |
| Utils.DispatchMessageId | WXApi/WXApi/event.py:39 | a dispatched message carries the payload's `MsgId` unchanged |
| Utils.Xml2Event | WXApi/WXApi/WXUtils.py:80-84 | flattening then dispatching; a malformed document is an error |
| Utils.DispatchText | WXApi/WXApi/WXUtils.py:86-88 | a payload with `MsgId` and type exactly `text` becomes a `TextMsg`, accepted exactly when the envelope and `Content` are present |
| Utils.TextPayloadContent | WXApi/WXApi/WXUtils.py:64-88 | a text message with `MsgId` is dispatched exactly when its envelope is complete, as a text message whose content is the text of the last `<Content>` child |
| Utils.Find | WXApi/WXApi/WXUtils.py:33 | `str.find`: -1 exactly when the character is absent, otherwise its first index |
| Utils.Split | WXApi/WXApi/WXUtils.py:31 | `str.split`: at least one part, and no part holds the separator |
| Utils.SplitJoin | WXApi/WXApi/WXUtils.py:31 | joining the parts with the separator gives back the text |
| Utils.SplitCount | WXApi/WXApi/WXUtils.py:31 | a text has one more part than separators |
| Utils.BreaksIff | WXApi/WXApi/WXUtils.py:33-34 | a part aborts the loop exactly when it does not start with `=` and holds other than one `=` (the empty part included) |
| Utils.UrlDecode | WXApi/WXApi/WXUtils.py:27-41 | an undecodable query gives the empty dict; otherwise the result is the whole in-order update over the parts, or the empty dict if any part aborts |
| Utils.QueryMapKeys | WXApi/WXApi/WXUtils.py:31-41 | a key is in the result exactly when no part aborts the loop and some kept part unquotes to it; its value is that of the last such part, later parts overwriting earlier ones |
| Utils.EntriesLastPart | WXApi/WXApi/WXUtils.py:32-35 | a key the loop binds holds the value of the last kept part whose key unquotes to it |
| Utils.EntriesFromParts | WXApi/WXApi/WXUtils.py:32-35 | each entry added comes from a part that is not skipped and splits into exactly key and value |
| Utils.SignedTextOrderFree | WXApi/WXApi/WXUtils.py:48-53 | the signed text is the same for every arrangement of token, timestamp and nonce |
| Utils.AuthSignature | WXApi/WXApi/WXUtils.py:44-61 | False when `timestamp`, `nonce` or `signature` is missing; otherwise True exactly when the signature decodes and equals the digest of the sorted concatenation; a non-hex signature gives False |
| StringOrder.LessEqTotal | WXApi/WXApi/WXUtils.py:51 | Python's string order relates any two strings |
| StringOrder.LessEqAntisym | WXApi/WXApi/WXUtils.py:51 | two strings each at most the other are equal |
| StringOrder.LessEqTrans | WXApi/WXApi/WXUtils.py:51 | the order is transitive |
| StringOrder.SortPermutation | WXApi/WXApi/WXUtils.py:51 | lists that are permutations of each other sort to the same list |
| StringOrder.SortedUnique | WXApi/WXApi/WXUtils.py:51 | two sorted permutations of the same strings are equal, so the sort result depends only on the multiset |
| WeChatXml.RenderNodesConcat | WXApi/WXApi/event.py:232-251 | nodes render one after the other in insertion order |
| WeChatXml.XmlNode.constructor | WXApi/WXApi/event.py:215-218 | a new object has the given root and no nodes |
| WeChatXml.XmlNode.AddEle | WXApi/WXApi/event.py:220-221 | appends exactly one node at the end; nothing else changes |
| WeChatXml.XmlNode.Unicode | WXApi/WXApi/event.py:229-251 | the loop's text is the rendering of the object's tree: root tags only for a root, each node in order |
| WeChatXml.XmlNode.NodeString | WXApi/WXApi/event.py:232-249 | one loop turn yields the rendering of that node, a nested object rendered recursively |
| WeChatXml.XmlNode.Add | WXApi/WXApi/event.py:259-262 | `a + b` is `a`'s rendering followed by `b`'s, or `a`'s alone when `b` is not a `WeChatXML` |
| WireFormat.DocumentRoundTrip | WXApi/WXApi/event.py:234-236 | an element tree with name tags and no `]]>` in any text is read back from its serialization |
| Replies.NewHeader | WXApi/WXApi/event.py:266-272 | succeeds exactly when both ids are present; the reply goes to the sender from the recipient; `ToUserName` is checked first |
| Replies.ReplyToReply | WXApi/WXApi/event.py:268-271 | answering a reply goes back to the original sender |
| Replies.TextNode | WXApi/WXApi/event.py:324-327 | the text body is a bare `Content` node |
| Replies.MediaNode | WXApi/WXApi/event.py:330-357 | image and voice bodies hold `MediaId` inside `<Image>` or `<Voice>` |
| Replies.VideoNode | WXApi/WXApi/event.py:371-376 | the video body holds `MediaId`, `Title`, `Description` in that order |
| Replies.MusicNode | WXApi/WXApi/event.py:392-399 | the music body holds `Title`, `Description`, `MusicUrl`, `HQMusicUrl`, `ThumbMediaId` in that order |
| Replies.ItemNode | WXApi/WXApi/event.py:419-424 | an `<item>` holds `Title`, `Description`, `PicUrl`, `Url` |
| Replies.NewsNode | WXApi/WXApi/event.py:414-425 | the news body is the article count followed by `<Articles>` with one item per article in list order |
| Replies.NewsBodyShape | WXApi/WXApi/event.py:414-425 | the news document holds `ArticleCount` = number of articles and, for each article in order, an item of its four fields |
| Replies.BuildNode | WXApi/WXApi/event.py:308-425 | each reply kind's `node()`: nothing for the empty reply, text for news, otherwise an object whose tree is the body's |
| Replies.BuildReply | WXApi/WXApi/event.py:274-281 | `_create_xml` builds `<xml>` with `FromUserName`, `ToUserName`, `CreateTime`, `MsgType`, then the body |
| Replies.ReplyRendersWireDoc | WXApi/WXApi/event.py:274-281 | the rendered reply is the serialization of the reply's element tree |
| Replies.ReplyWellFormed | WXApi/WXApi/event.py:236 | a reply whose texts hold no `]]>` is well-formed in the sense of `WireFormat.WellFormed`: every tag a name and no text holding `]]>` |
| Replies.ReplyRoundTrip | WXApi/WXApi/event.py:274-290 | such a reply's rendered text reads back as exactly its element tree |
| Replies.CreateReplyXml | WXApi/WXApi/event.py:289-306 | the empty reply yields `success`; every other reply its serialized document |
| Replies.NewsReply.constructor | WXApi/WXApi/event.py:405-409 | a news reply starts with exactly one article |
| Replies.NewsReply.AddMoreNews | WXApi/WXApi/event.py:427-435 | a full list (8) is unchanged, otherwise exactly one article is appended; 1 to 8 articles always |
| Replies.NewsReply.CreateXml | WXApi/WXApi/event.py:414-425 | a news reply renders as its header and news body document |
| Menu.Utf8Length | WXApi/WXApi/WXMenu.py:58-59 | the encoded length lies between the character count and four times it |
| Menu.CheckName | WXApi/WXApi/WXMenu.py:81-91 | a top-level name passes exactly at 16 bytes or fewer, a sub-button name at 40 or fewer |
| Menu.ShortNamesPass | WXApi/WXApi/WXMenu.py:81-91 | names of at most 4 (top level) or 10 (sub-button) characters always pass |
| Menu.WXMenu.constructor | WXApi/WXApi/WXMenu.py:24-27 | a menu without a current menu has no buttons |
| Menu.WXMenu.AddButton | WXApi/WXApi/WXMenu.py:33-54 | result and new list follow the as-written rule: cap at more than 3, duplicate name refused with the list unchanged, the appended element the last stored button unless the list was empty, the sub-button path leaving the list unchanged |
| Menu.AddResultCopiesFirst | WXApi/WXApi/WXMenu.py:42-46 | as written, a menu only ever holds copies of its first button, at most four |
| Menu.AddResultLetsFourthIn | WXApi/WXApi/WXMenu.py:35-36 | as written, three buttons grow to four |
| Menu.WXMenu.AddButtonIntended | WXApi/WXApi/WXMenu.py:33-51 | the intended rule: at most 3 buttons, duplicate refused, the given button appended |
| Menu.AddIntendedKeepsMenu | WXApi/WXApi/WXMenu.py:35-46 | the intended add keeps at most 3 buttons with distinct names, and on success the given button is last |
| Menu.WXMenu.CreateView | WXApi/WXApi/WXMenu.py:56-70 | a link over 1024 bytes is refused; with a parent name only the sub-button name check runs; otherwise name check then add |
| Menu.WXMenu.CreateClick | WXApi/WXApi/WXMenu.py:72-79 | with a parent name only the sub-button name check runs; otherwise name check then add |
| Menu.WXMenu.ToJsonObject | WXApi/WXApi/WXMenu.py:109-115 | succeeds exactly with 1 to 3 buttons, yielding them |
| Menu.WXMenu.Load | WXApi/WXApi/WXMenu.py:28-31 | loading a current menu succeeds exactly with at most 4 buttons none named like the first, leaving copies of the first |
| Menu.FourClicksAsWritten | WXApi/WXApi/WXMenu.py:35-46 | four distinct clicks are all accepted and the menu then cannot be published |
| Menu.FourClicksIntended | WXApi/WXApi/WXMenu.py:35-46 | with the intended rule, three clicks are kept as given and publishable, and a fourth is refused |
| Request.ValidResponse | WXApi/WXApi/request.py:95-105 | OK exactly for a good status with no or zero `errcode`, yielding the body; a non-zero `errcode` is the server's error; a bad status fails |
| Request.MPCenter.constructor | WXApi/WXApi/request.py:30-39 | the center stores its id, secret, cache switch, token and expiry |
| Request.MPCenter.Update | WXApi/WXApi/request.py:62-64 | an empty or missing id keeps the old one; the secret is always replaced |
| Request.MPCenter.RefreshAccessToken | WXApi/WXApi/request.py:66-78 | a reply missing `expires_in` or `access_token` is an error with the cache unchanged; otherwise the token is stored, expiring 60 s before the server says, and the cache is valid at once exactly when the lifetime exceeds 60 s |
| Request.MPCenter.AccessToken | WXApi/WXApi/request.py:80-87 | result and new cache are those of `AccessTokenOutcome` on the old cache, the instant and the replies; id, secret and cache switch are unchanged; a valid cached token is returned unchanged |
| Request.AccessTokenOutcome | WXApi/WXApi/request.py:80-87 | a returned token is the one left in a cache valid at that instant; with caching off no token is ever returned |
| Request.FirstLastingReply | WXApi/WXApi/request.py:66-87 | after complete replies living at most 60 s, the token returned is that of the first reply living longer, and the cache holds it with its expiry |
| Request.IncompleteReplyFails | WXApi/WXApi/request.py:72-73 | after complete short-lived replies, the first reply missing `expires_in` or `access_token` ends the property with that `KeyError` |
| Request.QrParamsFor | WXApi/WXApi/request.py:408-439 | int scene with expiry up to 2592000 gives `QR_SCENE` with `123`; a longer one needs 1..100000 and gives `QR_LIMIT_SCENE`; a string scene of at most 64 characters gives `QR_LIMIT_STR_SCENE` |
| Request.TemporarySceneIgnored | WXApi/WXApi/request.py:408-416 | a temporary code's parameters do not depend on the scene number |
| Request.UploadUrl | WXApi/WXApi/request.py:341-364 | succeeds exactly for an existing file of a supported ending/type within its cap (jpg image 128 KiB, jpg thumb 64 KiB, amr/mp3 voice 256 KiB, mp4 video 1 MiB); the URL is the base plus `&type=` and the type |

## Left out

- HTTP traffic (`get`, `post`, `download`, `reply`, `add_kf`, the menu, group
  and user calls, `download_media`, `save_qrcode`): network and filesystem glue
  with no decision in it.
- `get_users` pagination: it indexes a literal key that no response holds, so
  it has no working behaviour to model.
- `broadcast` (an empty stub) and the `MPReply` holder class.
- XML parsing inside `xml2json`: the parsed document is an abstract list of
  (tag, text) children or a parse failure.
- SHA-1, `unhexlify`, `unquote` and the text codec of `url_decode` are function
  parameters. `unquote` is total; `unhexlify` may fail.
- Utils.AuthSignature: the `TypeError`/`AttributeError` branches for non-string
  arguments cannot arise with string-typed arguments.
- Utils.AuthSignature: follows Python 2, as `menu.dfy` does. A signature that
  `unhexlify` cannot decode raises `TypeError`, which the handler turns into
  False. Under Python 3 it raises `binascii.Error`, which escapes the handler
  although the docstring promises False.
- Utils.AuthSignature: a signature holding a non-ASCII character is modelled as
  False. Under Python 2 converting it for `unhexlify` raises
  `UnicodeEncodeError`, a `ValueError` that escapes the handler.
- Request.QrParamsFor: follows Python 3, where `str(scene_value)` keeps any
  string scene. Under Python 2 a non-ASCII string scene raises
  `UnicodeEncodeError` there, and nothing catches it.
- `time.time()` and `datetime.now()` are parameters in whole seconds.
- Request.MPCenter.AccessToken: takes one instant for the whole recursion. The
  source reads the clock again on every refresh (`time()`) and on every
  recursive call (`datetime.now()`).
- Request.MPCenter.AccessToken: the endless recursion when tokens keep expiring
  is cut by the finite list of refresh replies and reported as
  `RecursionLimit`.
- Request.MPCenter.RefreshAccessToken: the HTTP GET and its response
  validation are left out; the parsed reply is the parameter.
- Request.UploadUrl: the upload itself, its multipart body and the parsing of
  the answer are left out.
- Request.QrParamsFor: the POST, the ticket URL and the image download are
  left out.
- Request.ValidResponse: the body is taken as already parsed. A good status
  with a body that is not JSON makes `res_obj.json()` raise, and that case is
  not modelled.
- Logging, `warnings.warn`, `print` and `traceback` output, together with the
  arguments those messages are built from. In `xml2json` the log message
  decodes the raw data, which can itself raise (`UnicodeDecodeError`, or
  `AttributeError` on a Python 3 `str`) before `WXApiError` is raised; the
  model always reports `MalformedXml`.
- Common.Lower: `str.lower` is modelled on ASCII letters only.
- Python 2/3 shims: `__str__` encoding and `name.decode` in WXMenu. Names are
  Unicode strings and their UTF-8 length is counted.
- The JSON load in the `WXMenu` constructor: Menu.WXMenu.Load takes the parsed
  button list. `__str__`, `__repr__` and `to_json_string` only dump
  `to_json_object` to JSON.
- Menu.WXMenu.AddButton: `_add_sub_button` only logs, so the sub-button path
  models no change to the list.
- WeChatXml.XmlNode.AddEle: a nested object is taken as complete when it is
  added. The source stores it by reference and renders it only in
  `__unicode__`, so nodes added to the child later show in the parent's
  output. In the model the parent's invariant fixes the child's tree at the
  moment it was added, and changing the child afterwards leaves the parent
  unrenderable. The replies never change a child after adding it.
- Replies.NewsReply.constructor takes a header already built by
  Replies.NewHeader and cannot fail itself.
- `ReplyObject.__str__`/`__repr__` and the `Msg` dict class (articles are a
  datatype with four optional fields).
- Value kinds other than None, int, str and a nested `WeChatXML` object as
  `add_ele` values.
- `WXApi/setup.py` and `WXApi/WXApi/__init__.py`: packaging and re-exports
  only.

## Findings

| source | as written | input that shows it | evidently intended | confidence | as-written member | corrected member |
|---|---|---|---|---|---|---|
| WXApi/WXApi/event.py:170 | `QAFailedEvent` asserts the event is `qualification_verify_success` | a `qualification_verify_fail` event with its three keys is refused | assert `qualification_verify_fail` | not executed | Inbound.CertificationTagsAsWritten | Inbound.NewQAFailedEventIntended |
| WXApi/WXApi/event.py:181 | `NamingSuccessEvent` asserts the event is `qualification_verify_fail` | a `naming_verify_success` event with `ExpiredTime` is refused | assert `naming_verify_success` | not executed | Inbound.CertificationTagsAsWritten | Inbound.NewNamingSuccessEventIntended |
| WXApi/WXApi/WXMenu.py:35 | the cap check is `len(buttons) > MAX_Button` | four top-level clicks with distinct names are all accepted, and the menu can no longer be published | refuse a button when 3 are stored (`>=`) | not executed | Menu.FourClicksAsWritten | Menu.FourClicksIntended |
| WXApi/WXApi/WXMenu.py:42-46 | the duplicate loop rebinds `button`, so the last stored button is appended | `create_click("a")` then `create_click("b")` stores two copies of `a` | append the button given | not executed | Menu.AddResultCopiesFirst | Menu.AddIntendedKeepsMenu |

The public operations (Menu.WXMenu.CreateView, Menu.WXMenu.CreateClick and the
certification constructors) keep the behaviour as written. The intended
certification constructors change only the asserted tag. They read the same
keys as written, including `qualification_verify_fail` in a failure event,
because nothing in the source says which keys those events carry. The corrected
definitions sit beside them, and the intended property is proved about each one.

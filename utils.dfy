/** The conversions of WXApi/WXApi/WXUtils.py:27-126: decoding the webhook's
    query string, checking its signature, flattening the XML payload and
    dispatching it to the inbound object it describes. */
module Utils {
  import opened Common
  import opened Inbound
  import StringOrder

  // ---------------------------------------------------------------------------
  // Maps built by successive updates.

  /** The map that `dict.update` builds from `entries` taken in order: a later
      entry replaces an earlier one with the same key. */
  function Assign<K, V>(entries: seq<(K, V)>): map<K, V>
  {
    if entries == [] then map[]
    else
      var last := entries[|entries| - 1];
      Assign(entries[..|entries| - 1])[last.0 := last.1]
  }

  /** A key is bound exactly when some entry carries it, and it is bound to the
      value of the last such entry. */
  lemma {:induction false} AssignLastWins<K, V>(entries: seq<(K, V)>, k: K)
    ensures k in Assign(entries) <==> exists i :: 0 <= i < |entries| && entries[i].0 == k
    ensures k in Assign(entries) ==>
              exists i :: 0 <= i < |entries| && entries[i].0 == k && Assign(entries)[k] == entries[i].1
                          && forall j :: i < j < |entries| ==> entries[j].0 != k
  {
    if entries != [] {
      var n := |entries| - 1;
      var init := entries[..n];
      AssignLastWins(init, k);
      if entries[n].0 != k {
        if k in Assign(init) {
          var i :| 0 <= i < |init| && init[i].0 == k && Assign(init)[k] == init[i].1
                   && forall j :: i < j < |init| ==> init[j].0 != k;
          assert entries[i] == init[i];
        }
        assert forall i :: 0 <= i < n ==> entries[i] == init[i];
      }
    }
  }

  // ---------------------------------------------------------------------------
  // xml2json and xml2event.

  /** What `ElementTree.fromstring` yields: the root's children in document
      order, each a tag and its text, or a parse failure. */
  datatype XmlPayload = Malformed | Document(children: seq<(string, Option<string>)>)

  /** `xml2json`: one entry per child of the root, later duplicates winning. */
  method Xml2Json(payload: XmlPayload) returns (r: Result<Fields, Error>)
    ensures payload.Malformed? ==> r == Err(MalformedXml)
    ensures payload.Document? ==> r.Ok? && r.value == Assign(payload.children)
  {
    if payload.Malformed? {
      return Err(MalformedXml);
    }
    var children := payload.children;
    var result: Fields := map[];
    var i := 0;
    while i < |children|
      invariant 0 <= i <= |children|
      invariant result == Assign(children[..i])
    {
      assert children[..i + 1][..i] == children[..i];
      result := result[children[i].0 := children[i].1];
      i := i + 1;
    }
    assert children[..i] == children;
    return Ok(result);
  }

  /** Every tag of the payload is a key of the result, holding the text of its
      last occurrence. */
  lemma Xml2JsonFields(children: seq<(string, Option<string>)>, tag: string)
    ensures tag in Assign(children) <==> exists i :: 0 <= i < |children| && children[i].0 == tag
    ensures tag in Assign(children) ==>
              exists i :: 0 <= i < |children| && children[i].0 == tag && Assign(children)[tag] == children[i].1
                          && forall j :: i < j < |children| ==> children[j].0 != tag
  {
    AssignLastWins(children, tag);
  }

  const MessageTags: seq<string> := ["text", "image", "voice", "video", "link", "location"]
  const EventTags: seq<string> := ["location", "subscribe", "unsubscribe", "scan", "click", "view"]

  /** `xml2event` after the flattening: the exact, case-sensitive `MsgType`
      (and for events `Event`) picks the constructor, which re-checks it. */
  function Dispatch(f: Fields): (r: Result<Inbound, Error>)
    ensures "MsgId" in f && !(GetOpt(f, "MsgType").Some? && GetOpt(f, "MsgType").value in MessageTags)
            ==> r == Err(UnknownMessageType)
    ensures "MsgId" !in f && GetOpt(f, "MsgType") != Some("event") ==> r == Err(UnknownMessageOrEvent)
    ensures ("MsgId" !in f && GetOpt(f, "MsgType") == Some("event")
             && !(GetOpt(f, "Event").Some? && GetOpt(f, "Event").value in EventTags)) ==> r == Err(UnsupportedEventType)
    ensures r.Ok? ==> HasEnvelopeKeys(f) && r.value.env == EnvelopeOf(f)
    ensures r.Ok? ==> (r.value.IsMessage() <==> "MsgId" in f)
    ensures r.Ok? && r.value.IsMessage() ==> GetOpt(f, "MsgType") == Some(r.value.Type())
    ensures r.Ok? && !r.value.IsMessage() ==> GetOpt(f, "Event") == Some(r.value.EventName())
  {
    var msgType := GetOpt(f, "MsgType");
    if "MsgId" in f then
      if msgType == Some("text") then NewTextMsg(f)
      else if msgType == Some("image") then NewImageMsg(f)
      else if msgType == Some("voice") then NewVoiceMsg(f)
      else if msgType == Some("video") then NewVideoMsg(f)
      else if msgType == Some("link") then NewLinkMsg(f)
      else if msgType == Some("location") then NewLocationMsg(f)
      else Err(UnknownMessageType)
    else
      var event := GetOpt(f, "Event");
      if msgType == Some("event") then
        if event == Some("location") then NewLocationEvent(f)
        else if event == Some("subscribe") then NewSubEvent(f)
        else if event == Some("unsubscribe") then NewUnSubEvent(f)
        else if event == Some("scan") then NewScanEvent(f)
        else if event == Some("click") then NewClickEvent(f)
        else if event == Some("view") then NewViewEvent(f)
        else Err(UnsupportedEventType)
      else Err(UnknownMessageOrEvent)
  }

  /** The keys a message of type `t` needs besides the common ones. */
  predicate MessageBodyOk(f: Fields, t: string) {
    match t
    case "text" => "Content" in f
    case "image" => "MediaId" in f && "PicUrl" in f
    case "voice" => "MediaId" in f && "Format" in f
    case "video" => "MediaId" in f && "ThumbMediaId" in f
    case "link" => "Title" in f && "Description" in f && "Url" in f
    case "location" => "Location_X" in f && "Location_Y" in f && "Scale" in f && "Label" in f
    case _ => false
  }

  /** What an event named `e` needs besides the common keys. */
  predicate EventBodyOk(f: Fields, e: string) {
    match e
    case "location" => "Latitude" in f && "Longitude" in f && "Precision" in f
    case "subscribe" => TicketOk(f)
    case "unsubscribe" => true
    case "scan" => "EventKey" in f && "Ticket" in f
    case "click" => "EventKey" in f
    case "view" => "EventKey" in f
    case _ => false
  }

  /** The payloads that `xml2event` turns into an object rather than an error,
      stated key by key. */
  predicate Accepted(f: Fields) {
    if "MsgId" in f then
      HasMessageKeys(f) && f["MsgType"].Some? && MessageBodyOk(f, f["MsgType"].value)
    else
      HasEventKeys(f) && f["MsgType"] == Some("event") && f["Event"].Some? && EventBodyOk(f, f["Event"].value)
  }

  /** The message half of `xml2event`: each known type is its constructor's
      accepted payloads. */
  lemma DispatchMessageIff(f: Fields)
    requires "MsgId" in f
    ensures Dispatch(f).Ok? <==> Accepted(f)
  {
    var t := GetOpt(f, "MsgType");
    if t == Some("text") {
      LowerFixesLowerCase("text");
    } else if t == Some("image") {
      LowerFixesLowerCase("image");
    } else if t == Some("voice") {
      LowerFixesLowerCase("voice");
    } else if t == Some("video") {
      LowerFixesLowerCase("video");
    } else if t == Some("link") {
      LowerFixesLowerCase("link");
    } else if t == Some("location") {
      LowerFixesLowerCase("location");
    }
  }

  /** The event half of `xml2event`. */
  lemma DispatchEventIff(f: Fields)
    requires "MsgId" !in f
    ensures Dispatch(f).Ok? <==> Accepted(f)
  {
    var e := GetOpt(f, "Event");
    if e == Some("location") {
      LowerFixesLowerCase("location");
    } else if e == Some("subscribe") {
      LowerFixesLowerCase("subscribe");
    } else if e == Some("unsubscribe") {
      LowerFixesLowerCase("unsubscribe");
    } else if e == Some("scan") {
      LowerFixesLowerCase("scan");
    } else if e == Some("click") {
      LowerFixesLowerCase("click");
    } else if e == Some("view") {
      LowerFixesLowerCase("view");
    }
  }

  /** `xml2event` succeeds exactly on the accepted payloads. */
  lemma DispatchSucceedsIff(f: Fields)
    ensures Dispatch(f).Ok? <==> Accepted(f)
  {
    if "MsgId" in f {
      DispatchMessageIff(f);
    } else {
      DispatchEventIff(f);
    }
  }

  /** A dispatched message carries the payload's `MsgId`. */
  lemma DispatchMessageId(f: Fields)
    requires "MsgId" in f && Dispatch(f).Ok?
    ensures Dispatch(f).value.IsMessage() && Dispatch(f).value.messageId == f["MsgId"]
  {
    var t := GetOpt(f, "MsgType");
    if t == Some("text") {
      assert Dispatch(f) == NewTextMsg(f);
    } else if t == Some("image") {
      assert Dispatch(f) == NewImageMsg(f);
    } else if t == Some("voice") {
      assert Dispatch(f) == NewVoiceMsg(f);
    } else if t == Some("video") {
      assert Dispatch(f) == NewVideoMsg(f);
    } else if t == Some("link") {
      assert Dispatch(f) == NewLinkMsg(f);
    } else {
      assert Dispatch(f) == NewLocationMsg(f);
    }
  }

  /** Two dispatched messages compare equal exactly when their payloads carry
      the same `MsgId`. */
  lemma DispatchedMessagesEqual(f: Fields, g: Fields)
    requires Dispatch(f).Ok? && Dispatch(g).Ok?
    requires "MsgId" in f && "MsgId" in g
    ensures Dispatch(f).value.IsMessage() && Dispatch(g).value.IsMessage()
    ensures SameMessage(Dispatch(f).value, Dispatch(g).value) <==> f["MsgId"] == g["MsgId"]
  {
    DispatchMessageId(f);
    DispatchMessageId(g);
  }

  /** A text message read from the payload's children: it is dispatched
      exactly when the envelope is complete, and its content is the text of
      the last `Content` child. */
  lemma TextPayloadContent(children: seq<(string, Option<string>)>, i: nat)
    requires i < |children| && children[i].0 == "Content"
    requires forall j :: i < j < |children| ==> children[j].0 != "Content"
    requires "MsgId" in Assign(children) && GetOpt(Assign(children), "MsgType") == Some("text")
    ensures Dispatch(Assign(children)).Ok? <==> HasEnvelopeKeys(Assign(children))
    ensures Dispatch(Assign(children)).Ok? ==>
              Dispatch(Assign(children)).value
              == TextMsg(EnvelopeOf(Assign(children)), Assign(children)["MsgId"], children[i].1)
  {
    var f := Assign(children);
    LastOccurrence(children, i);
    DispatchText(f);
  }

  /** The value bound to a tag is the text of its last occurrence. */
  lemma LastOccurrence(children: seq<(string, Option<string>)>, i: nat)
    requires i < |children|
    requires forall j :: i < j < |children| ==> children[j].0 != children[i].0
    ensures children[i].0 in Assign(children) && Assign(children)[children[i].0] == children[i].1
  {
    var tag := children[i].0;
    AssignLastWins(children, tag);
    var m :| 0 <= m < |children| && children[m].0 == tag && Assign(children)[tag] == children[m].1
             && forall j :: m < j < |children| ==> children[j].0 != tag;
    assert m == i;
  }

  /** A payload with `MsgId` whose type is exactly `text` goes to `TextMsg`,
      which accepts it when the envelope and the content are there. */
  lemma DispatchText(f: Fields)
    requires "MsgId" in f && GetOpt(f, "MsgType") == Some("text")
    ensures Dispatch(f) == NewTextMsg(f)
    ensures Dispatch(f).Ok? <==> HasEnvelopeKeys(f) && "Content" in f
  {
    LowerFixesLowerCase("text");
  }

  /** `xml2event`: flatten, then dispatch. */
  method Xml2Event(payload: XmlPayload) returns (r: Result<Inbound, Error>)
    ensures payload.Malformed? ==> r == Err(MalformedXml)
    ensures payload.Document? ==> r == Dispatch(Assign(payload.children))
  {
    var fields :- Xml2Json(payload);
    r := Dispatch(fields);
  }

  // ---------------------------------------------------------------------------
  // url_decode.

  /** `str.find` for one character: the first index holding `c`, or -1. */
  function Find(s: string, c: char): (r: int)
    ensures r == -1 <==> c !in s
    ensures r != -1 ==> 0 <= r < |s| && s[r] == c && c !in s[..r]
  {
    if s == [] then -1
    else if s[0] == c then 0
    else
      var k := Find(s[1..], c);
      if k == -1 then -1
      else
        assert s[..k + 1] == [s[0]] + s[1..][..k];
        k + 1
  }

  /** `str.split(sep)`. */
  function Split(s: string, sep: char): (parts: seq<string>)
    ensures |parts| >= 1
    ensures forall i :: 0 <= i < |parts| ==> sep !in parts[i]
  {
    if s == [] then [""]
    else
      var rest := Split(s[1..], sep);
      if s[0] == sep then [""] + rest
      else [[s[0]] + rest[0]] + rest[1..]
  }

  /** `sep.join(parts)`. */
  function Join(parts: seq<string>, sep: char): string
  {
    if parts == [] then ""
    else if |parts| == 1 then parts[0]
    else parts[0] + [sep] + Join(parts[1..], sep)
  }

  /** Splitting loses nothing: joining the parts gives back the text. */
  lemma {:induction false} SplitJoin(s: string, sep: char)
    ensures Join(Split(s, sep), sep) == s
  {
    if s != [] {
      var rest := Split(s[1..], sep);
      SplitJoin(s[1..], sep);
      if s[0] == sep {
        assert s == [sep] + s[1..];
      } else {
        assert s == [s[0]] + s[1..];
        if |rest| > 1 {
          assert Split(s, sep)[1..] == rest[1..];
        }
      }
    }
  }

  /** A text splits into one more part than it has separators. */
  lemma {:induction false} SplitCount(s: string, sep: char)
    ensures |Split(s, sep)| == multiset(s)[sep] + 1
  {
    if s != [] {
      SplitCount(s[1..], sep);
      assert s == [s[0]] + s[1..];
    }
  }

  /** A part the loop skips: `part.find('=')` is 0, the part begins with '='. */
  predicate Skipped(part: string) {
    Find(part, '=') == 0
  }

  /** A part whose `k, v = part.split('=')` unpacking raises: it is not skipped
      and does not hold exactly one '='. */
  predicate Breaks(part: string) {
    !Skipped(part) && |Split(part, '=')| != 2
  }

  /** The entries the loop adds, in order, when no part breaks it. */
  function Entries(parts: seq<string>, unquote: string -> string): seq<(string, string)>
  {
    if parts == [] then []
    else
      var part := parts[|parts| - 1];
      var kv := Split(part, '=');
      Entries(parts[..|parts| - 1], unquote)
        + (if Skipped(part) || |kv| != 2 then [] else [(unquote(kv[0]), unquote(kv[1]))])
  }

  predicate AnyBreaks(parts: seq<string>) {
    exists i :: 0 <= i < |parts| && Breaks(parts[i])
  }

  /** The dictionary `url_decode` returns for a decoded query: all of it, or
      nothing at all when one part breaks the unpacking. */
  function QueryMap(text: string, unquote: string -> string): map<string, string>
  {
    var parts := Split(text, '&');
    if AnyBreaks(parts) then map[] else Assign(Entries(parts, unquote))
  }

  lemma AssignSnoc<K, V>(entries: seq<(K, V)>, k: K, v: V)
    ensures Assign(entries + [(k, v)]) == Assign(entries)[k := v]
  {
    assert (entries + [(k, v)])[..|entries|] == entries;
  }

  /** One more part, when it does not break the loop: the dictionary gains
      its entry, if it has one. */
  lemma {:induction false} PartStep(text: string, parts: seq<string>, i: nat, unquote: string -> string,
                                    result: map<string, string>)
    requires parts == Split(text, '&')
    requires i < |parts| && !AnyBreaks(parts[..i])
    requires result == Assign(Entries(parts[..i], unquote))
    ensures Breaks(parts[i]) ==> QueryMap(text, unquote) == map[]
    ensures !Breaks(parts[i]) ==> !AnyBreaks(parts[..i + 1])
    ensures !Breaks(parts[i]) ==>
              var kv := Split(parts[i], '=');
              Assign(Entries(parts[..i + 1], unquote))
              == if Skipped(parts[i]) then result else result[unquote(kv[0]) := unquote(kv[1])]
  {
    if Breaks(parts[i]) {
      BrokenQuery(text, parts, i, unquote);
      return;
    }
    var kv := Split(parts[i], '=');
    assert parts[..i + 1][..i] == parts[..i];
    assert forall j :: 0 <= j < i ==> parts[..i + 1][j] == parts[..i][j];
    assert parts[..i + 1][i] == parts[i];
    if Skipped(parts[i]) {
      assert Entries(parts[..i + 1], unquote) == Entries(parts[..i], unquote) + [];
      assert Entries(parts[..i], unquote) + [] == Entries(parts[..i], unquote);
    } else {
      assert Entries(parts[..i + 1], unquote) == Entries(parts[..i], unquote) + [(unquote(kv[0]), unquote(kv[1]))];
      AssignSnoc(Entries(parts[..i], unquote), unquote(kv[0]), unquote(kv[1]));
    }
  }

  /** `url_decode`: `decode` is the text codec, `unquote` the percent-decoder. */
  method UrlDecode(query: Bytes, decode: Bytes -> Option<string>, unquote: string -> string)
    returns (result: map<string, string>)
    ensures decode(query).None? ==> result == map[]
    ensures decode(query).Some? ==> result == QueryMap(decode(query).value, unquote)
  {
    var text := decode(query);
    if text.None? {
      return map[];
    }
    var parts := Split(text.value, '&');
    result := map[];
    var i := 0;
    while i < |parts|
      invariant 0 <= i <= |parts|
      invariant !AnyBreaks(parts[..i])
      invariant result == Assign(Entries(parts[..i], unquote))
    {
      var part := parts[i];
      PartStep(text.value, parts, i, unquote, result);
      if Find(part, '=') != 0 {
        var kv := Split(part, '=');
        if |kv| != 2 {
          return map[];
        }
        result := result[unquote(kv[0]) := unquote(kv[1])];
      }
      i := i + 1;
    }
    WholeQuery(text.value, parts, i, unquote);
  }

  lemma BrokenQuery(text: string, parts: seq<string>, i: nat, unquote: string -> string)
    requires parts == Split(text, '&') && i < |parts| && Breaks(parts[i])
    ensures QueryMap(text, unquote) == map[]
  {
  }

  lemma WholeQuery(text: string, parts: seq<string>, i: nat, unquote: string -> string)
    requires parts == Split(text, '&') && i == |parts| && !AnyBreaks(parts[..i])
    ensures QueryMap(text, unquote) == Assign(Entries(parts[..i], unquote))
  {
    assert parts[..i] == parts;
  }

  /** A part that is not skipped breaks the loop exactly when it does not hold
      exactly one '='. */
  lemma BreaksIff(part: string)
    ensures Breaks(part) <==> !(part != [] && part[0] == '=') && multiset(part)['='] != 1
  {
    SplitCount(part, '=');
  }

  /** Each entry comes from a part that holds exactly one '=' and does not start
      with it, and is that part's two sides, unquoted. */
  lemma {:induction false} EntriesFromParts(parts: seq<string>, unquote: string -> string, e: (string, string))
    requires e in Entries(parts, unquote)
    ensures exists i :: 0 <= i < |parts| && !Skipped(parts[i]) && |Split(parts[i], '=')| == 2
                        && e == (unquote(Split(parts[i], '=')[0]), unquote(Split(parts[i], '=')[1]))
  {
    var n := |parts| - 1;
    var part := parts[n];
    var kv := Split(part, '=');
    if e in Entries(parts[..n], unquote) {
      EntriesFromParts(parts[..n], unquote, e);
      var i :| 0 <= i < n && !Skipped(parts[..n][i]) && |Split(parts[..n][i], '=')| == 2
               && e == (unquote(Split(parts[..n][i], '=')[0]), unquote(Split(parts[..n][i], '=')[1]));
      assert parts[..n][i] == parts[i];
    }
  }

  /** Every part that the loop does not skip and that splits into a key and a
      value contributes its entry. */
  lemma {:induction false} PartInEntries(parts: seq<string>, i: nat, unquote: string -> string)
    requires i < |parts| && !Skipped(parts[i]) && |Split(parts[i], '=')| == 2
    ensures (unquote(Split(parts[i], '=')[0]), unquote(Split(parts[i], '=')[1])) in Entries(parts, unquote)
  {
    var n := |parts| - 1;
    if i < n {
      assert parts[..n][i] == parts[i];
      PartInEntries(parts[..n], i, unquote);
    }
  }

  /** The part is kept by the loop and its key unquotes to `k`. */
  predicate KeyedBy(part: string, unquote: string -> string, k: string) {
    !Skipped(part) && |Split(part, '=')| == 2 && unquote(Split(part, '=')[0]) == k
  }

  /** The last part either binds `k` itself or leaves its binding as the
      earlier parts made it. */
  lemma LastPartBinding(parts: seq<string>, unquote: string -> string, k: string)
    requires parts != []
    ensures var n := |parts| - 1;
            KeyedBy(parts[n], unquote, k) ==>
              k in Assign(Entries(parts, unquote))
              && Assign(Entries(parts, unquote))[k] == unquote(Split(parts[n], '=')[1])
    ensures var n := |parts| - 1;
            !KeyedBy(parts[n], unquote, k) ==>
              (k in Assign(Entries(parts, unquote)) <==> k in Assign(Entries(parts[..n], unquote)))
              && (k in Assign(Entries(parts, unquote)) ==>
                    Assign(Entries(parts, unquote))[k] == Assign(Entries(parts[..n], unquote))[k])
  {
    var n := |parts| - 1;
    var init := Entries(parts[..n], unquote);
    var kv := Split(parts[n], '=');
    if !Skipped(parts[n]) && |kv| == 2 {
      assert Entries(parts, unquote) == init + [(unquote(kv[0]), unquote(kv[1]))];
      AssignSnoc(init, unquote(kv[0]), unquote(kv[1]));
    } else {
      assert Entries(parts, unquote) == init + [];
      assert init + [] == init;
    }
  }

  /** No element after index `i` of the prefix, and not the last one either:
      then none after `i` in the whole sequence. */
  lemma NoneAfterExtends<T>(s: seq<T>, prefix: seq<T>, i: nat, p: T -> bool)
    requires i < |s| - 1 && prefix == s[..|s| - 1]
    requires forall j :: i < j < |prefix| ==> !p(prefix[j])
    requires !p(s[|s| - 1])
    ensures forall j :: i < j < |s| ==> !p(s[j])
  {
    assert forall j :: i < j < |prefix| ==> prefix[j] == s[j];
  }

  /** Later parts overwrite earlier ones: a key's value comes from the last
      kept part whose key unquotes to it. */
  lemma {:induction false} EntriesLastPart(parts: seq<string>, unquote: string -> string, k: string)
    requires k in Assign(Entries(parts, unquote))
    ensures exists i :: 0 <= i < |parts| && KeyedBy(parts[i], unquote, k)
                        && Assign(Entries(parts, unquote))[k] == unquote(Split(parts[i], '=')[1])
                        && forall j :: i < j < |parts| ==> !KeyedBy(parts[j], unquote, k)
  {
    var n := |parts| - 1;
    var init := parts[..n];
    LastPartBinding(parts, unquote, k);
    if !KeyedBy(parts[n], unquote, k) {
      EntriesLastPart(init, unquote, k);
      var i :| 0 <= i < |init| && KeyedBy(init[i], unquote, k)
               && Assign(Entries(init, unquote))[k] == unquote(Split(init[i], '=')[1])
               && forall j :: i < j < |init| ==> !KeyedBy(init[j], unquote, k);
      assert init[i] == parts[i];
      NoneAfterExtends(parts, init, i, part => KeyedBy(part, unquote, k));
    }
  }

  /** A key is in the dictionary `url_decode` returns exactly when no part
      aborts the loop and some kept part unquotes to that key; its value is
      then that of the last such part. */
  lemma QueryMapKeys(text: string, unquote: string -> string, k: string)
    ensures var parts := Split(text, '&');
            k in QueryMap(text, unquote)
            <==> !AnyBreaks(parts) && exists i :: 0 <= i < |parts| && KeyedBy(parts[i], unquote, k)
    ensures var parts := Split(text, '&');
            k in QueryMap(text, unquote) ==>
              exists i :: 0 <= i < |parts| && KeyedBy(parts[i], unquote, k)
                          && QueryMap(text, unquote)[k] == unquote(Split(parts[i], '=')[1])
                          && forall j :: i < j < |parts| ==> !KeyedBy(parts[j], unquote, k)
  {
    var parts := Split(text, '&');
    if !AnyBreaks(parts) {
      var es := Entries(parts, unquote);
      if k in QueryMap(text, unquote) {
        EntriesLastPart(parts, unquote, k);
      }
      if exists i :: 0 <= i < |parts| && KeyedBy(parts[i], unquote, k) {
        var i :| 0 <= i < |parts| && KeyedBy(parts[i], unquote, k);
        PartInEntries(parts, i, unquote);
        var e := (unquote(Split(parts[i], '=')[0]), unquote(Split(parts[i], '=')[1]));
        var j :| 0 <= j < |es| && es[j] == e;
        AssignLastWins(es, k);
      }
    }
  }

  // ---------------------------------------------------------------------------
  // auth_signature.

  /** `''.join(parts)` */
  function Concat(parts: seq<string>): string
  {
    if parts == [] then "" else parts[0] + Concat(parts[1..])
  }

  /** The text whose digest the server expects: the token, timestamp and nonce
      in Python's string order, joined. */
  function SignedText(token: string, timestamp: string, nonce: string): string
  {
    Concat(StringOrder.Sort([token, timestamp, nonce]))
  }

  /** Signed text does not depend on which of the three strings plays which
      part: any arrangement of them sorts to the same list. */
  lemma SignedTextOrderFree(token: string, timestamp: string, nonce: string, arranged: seq<string>)
    requires multiset(arranged) == multiset([token, timestamp, nonce])
    ensures Concat(StringOrder.Sort(arranged)) == SignedText(token, timestamp, nonce)
  {
    StringOrder.SortPermutation(arranged, [token, timestamp, nonce]);
  }

  /** `auth_signature`: `unhexlify` decodes the hexadecimal signature and
      `sha1` is the digest of the encoded text. Under Python 2 a signature
      that is not hexadecimal makes `unhexlify` raise `TypeError`, which the
      handler turns into `False` like a missing key. */
  method AuthSignature(token: string, args: map<string, string>,
                       unhexlify: string -> Option<Bytes>, sha1: string -> Bytes)
    returns (r: bool)
    ensures !("timestamp" in args && "nonce" in args && "signature" in args) ==> !r
    ensures "timestamp" in args && "nonce" in args && "signature" in args ==>
              (r <==> unhexlify(args["signature"]).Some?
                      && unhexlify(args["signature"]).value
                         == sha1(SignedText(token, args["timestamp"], args["nonce"])))
  {
    var signParm := [token];
    var names := ["timestamp", "nonce"];
    for i := 0 to 2
      invariant |signParm| == i + 1 && signParm[0] == token
      invariant forall j :: 0 <= j < i ==> names[j] in args && signParm[j + 1] == args[names[j]]
    {
      if names[i] !in args {
        assert !("timestamp" in args && "nonce" in args);
        return false;
      }
      signParm := signParm + [args[names[i]]];
    }
    assert names[0] == "timestamp" && names[1] == "nonce";
    assert signParm[1] == args[names[0]] && signParm[2] == args[names[1]];
    assert signParm == [token, args["timestamp"], args["nonce"]];
    signParm := StringOrder.Sort(signParm);
    if "signature" !in args {
      return false;
    }
    var clientSign := unhexlify(args["signature"]);
    if clientSign.None? {
      return false;
    }
    assert Concat(signParm) == SignedText(token, args["timestamp"], args["nonce"]);
    var serverSign := sha1(Concat(signParm));
    r := clientSign.value == serverSign;
  }
}

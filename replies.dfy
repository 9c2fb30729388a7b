/** The passive replies of WXApi/WXApi/event.py:265-435. A reply swaps the
    sender's ids, stamps the time, names its type and appends a body; it is
    rendered through `WeChatXML` objects. The rendering is shown to be the
    serialization of a reply document, which reads back unchanged when no text
    holds the CDATA end marker. */
module Replies {
  import opened Common
  import Inbound
  import opened WeChatXml
  import opened WireFormat

  /** A payload value as the reply classes pass it on: nothing, an integer or a
      text. */
  datatype Scalar = SNone | SInt(i: int) | SStr(s: string)

  function ToPy(v: Scalar): PyVal {
    match v
    case SNone => PNone
    case SInt(i) => PInt(i)
    case SStr(s) => PStr(s)
  }

  function ToValue(v: Scalar): Value {
    match v
    case SNone => VNone
    case SInt(i) => VInt(i)
    case SStr(s) => VStr(s)
  }

  lemma PlainOfScalar(v: Scalar)
    ensures Plain(ToValue(v)) == ToPy(v)
  {
  }

  // ---------------------------------------------------------------------------
  // Replies as values.

  /** The envelope of a reply: who sends it, to whom, when. */
  datatype Header = Header(fromId: string, toId: string, time: int)

  datatype ReplyError = AssertionFailed(message: string)

  /** `ReplyObject.__init__` at time `now`: the reply goes back to whoever sent
      the message, from whomever received it. */
  function NewHeader(sender: Inbound.Envelope, now: int): (r: Result<Header, ReplyError>)
    ensures r.Ok? <==> sender.fromId.Some? && sender.toId.Some?
    ensures r.Ok? ==> r.value.toId == sender.fromId.value && r.value.fromId == sender.toId.value
                      && r.value.time == now
    ensures sender.toId.None? ==> r == Err(AssertionFailed("ToUserName is None"))
    ensures sender.toId.Some? && sender.fromId.None? ==> r == Err(AssertionFailed("FromUserName is None"))
  {
    var toId := sender.fromId;
    var fromId := sender.toId;
    if fromId.None? then Err(AssertionFailed("ToUserName is None"))
    else if toId.None? then Err(AssertionFailed("FromUserName is None"))
    else Ok(Header(fromId.value, toId.value, now))
  }

  /** Answering the answer goes back to the original sender: swapping twice
      restores both ids. */
  lemma ReplyToReply(sender: Inbound.Envelope, now: int, later: int, time: Option<string>)
    requires NewHeader(sender, now).Ok?
    ensures var h := NewHeader(sender, now).value;
            NewHeader(Inbound.Envelope(Some(h.fromId), Some(h.toId), time), later)
            == Ok(Header(sender.fromId.value, sender.toId.value, later))
  {
  }

  /** One news article (`Msg`). */
  datatype Article = Article(title: Scalar, description: Scalar, picUrl: Scalar, url: Scalar)

  /** The body each reply class appends after the envelope. */
  datatype Body =
    | Empty
    | Text(content: Scalar)
    | Image(mediaId: Scalar)
    | Voice(mediaId: Scalar)
    | Video(mediaId: Scalar, title: Scalar, description: Scalar)
    | Music(title: Scalar, description: Scalar, musicUrl: Scalar, hqMusicUrl: Scalar, thumbMediaId: Scalar)
    | News(articles: seq<Article>)

  datatype Reply = Reply(header: Header, body: Body)

  /** `msg_type()`: nothing for the empty reply. */
  function MsgTypeOf(b: Body): Scalar {
    match b
    case Empty => SNone
    case Text(_) => SStr("text")
    case Image(_) => SStr("image")
    case Voice(_) => SStr("voice")
    case Video(_, _, _) => SStr("video")
    case Music(_, _, _, _, _) => SStr("music")
    case News(_) => SStr("news")
  }

  /** The root of the object `node()` builds for a body of fields. */
  function BodyRoot(b: Body): Option<string>
    requires !b.Empty? && !b.News?
  {
    match b
    case Text(_) => None
    case Image(_) => Some("Image")
    case Voice(_) => Some("Voice")
    case Video(_, _, _) => Some("Video")
    case Music(_, _, _, _, _) => Some("Music")
  }

  /** The fields `node()` adds for a body of fields, in order. */
  function BodyFields(b: Body): seq<(string, Scalar)>
    requires !b.Empty? && !b.News?
  {
    match b
    case Text(c) => [("Content", c)]
    case Image(m) => [("MediaId", m)]
    case Voice(m) => [("MediaId", m)]
    case Video(m, t, d) => [("MediaId", m), ("Title", t), ("Description", d)]
    case Music(t, d, u, hq, m) => [("Title", t), ("Description", d), ("MusicUrl", u), ("HQMusicUrl", hq), ("ThumbMediaId", m)]
  }

  function ArticleFields(a: Article): seq<(string, Scalar)> {
    [("Title", a.title), ("Description", a.description), ("PicUrl", a.picUrl), ("Url", a.url)]
  }

  /** Tagged nodes, one per field. */
  function FieldNodes(fs: seq<(string, Scalar)>): seq<Node> {
    seq(|fs|, i requires 0 <= i < |fs| => Node(Some(fs[i].0), ToPy(fs[i].1)))
  }

  /** One more field adds one tagged node at the end. */
  lemma FieldNodesSnoc(fs: seq<(string, Scalar)>, tag: string, v: Scalar)
    ensures FieldNodes(fs + [(tag, v)]) == FieldNodes(fs) + [Node(Some(tag), ToPy(v))]
  {
  }

  function ItemTree(a: Article): Tree {
    Tree(Some("item"), FieldNodes(ArticleFields(a)))
  }

  function ItemNodes(arts: seq<Article>): seq<Node> {
    seq(|arts|, i requires 0 <= i < |arts| => Node(None, PTree(ItemTree(arts[i]))))
  }

  function CountTree(n: nat): Tree {
    Tree(Some("ArticleCount"), [Node(None, PInt(n))])
  }

  function ArticlesTree(arts: seq<Article>): Tree {
    Tree(Some("Articles"), ItemNodes(arts))
  }

  /** `NewsReply.node()`: the article count and the article list, already
      joined into text by `node1 + node`. */
  function NewsText(arts: seq<Article>): string {
    RenderTree(CountTree(|arts|)) + RenderTree(ArticlesTree(arts))
  }

  /** What `node()` returns. */
  function BodyNode(b: Body): PyVal {
    if b.Empty? then PNone
    else if b.News? then PStr(NewsText(b.articles))
    else PTree(Tree(BodyRoot(b), FieldNodes(BodyFields(b))))
  }

  function HeaderFields(h: Header, b: Body): seq<(string, Scalar)> {
    [("FromUserName", SStr(h.fromId)), ("ToUserName", SStr(h.toId)), ("CreateTime", SInt(h.time)),
     ("MsgType", MsgTypeOf(b))]
  }

  /** The object `_create_xml` builds. */
  function ReplyTree(r: Reply): Tree {
    Tree(Some("xml"), FieldNodes(HeaderFields(r.header, r.body)) + [Node(None, BodyNode(r.body))])
  }

  // ---------------------------------------------------------------------------
  // The reply document.

  /** The elements a field stands for: none when it is empty. */
  function ScalarElems(tag: string, v: Scalar): seq<Elem> {
    match v
    case SNone => []
    case SInt(i) => [Num(tag, i)]
    case SStr(s) => [Elem.Text(tag, s)]
  }

  function FieldElems(fs: seq<(string, Scalar)>): seq<Elem> {
    if fs == [] then [] else ScalarElems(fs[0].0, fs[0].1) + FieldElems(fs[1..])
  }

  function ItemElems(arts: seq<Article>): seq<Elem> {
    seq(|arts|, i requires 0 <= i < |arts| => Group("item", FieldElems(ArticleFields(arts[i]))))
  }

  function BodyElems(b: Body): seq<Elem> {
    if b.Empty? then []
    else if b.News? then [Num("ArticleCount", |b.articles|), Group("Articles", ItemElems(b.articles))]
    else if BodyRoot(b).None? then FieldElems(BodyFields(b))
    else [Group(BodyRoot(b).value, FieldElems(BodyFields(b)))]
  }

  /** The document a reply stands for: the envelope fields in order, then the
      body. */
  function WireDoc(r: Reply): Elem {
    Group("xml", FieldElems(HeaderFields(r.header, r.body)) + BodyElems(r.body))
  }

  // ---------------------------------------------------------------------------
  // Rendering is serialization.

  lemma {:induction false} FieldsRender(fs: seq<(string, Scalar)>)
    ensures RenderNodes(FieldNodes(fs)) == SerializeAll(FieldElems(fs))
  {
    if fs != [] {
      FieldsRender(fs[1..]);
      assert FieldNodes(fs)[1..] == FieldNodes(fs[1..]);
      SerializeAllConcat(ScalarElems(fs[0].0, fs[0].1), FieldElems(fs[1..]));
      match fs[0].1
      case SNone =>
      case SInt(i) =>
        assert SerializeAll([Num(fs[0].0, i)]) == Serialize(Num(fs[0].0, i));
      case SStr(s) =>
        assert SerializeAll([Elem.Text(fs[0].0, s)]) == Serialize(Elem.Text(fs[0].0, s));
    }
  }

  lemma {:induction false} ItemsRender(arts: seq<Article>)
    ensures RenderNodes(ItemNodes(arts)) == SerializeAll(ItemElems(arts))
  {
    if arts != [] {
      ItemsRender(arts[1..]);
      assert ItemNodes(arts)[1..] == ItemNodes(arts[1..]);
      assert ItemElems(arts)[1..] == ItemElems(arts[1..]);
      FieldsRender(ArticleFields(arts[0]));
      assert RenderNode(ItemNodes(arts)[0]) == RenderTree(ItemTree(arts[0]));
      assert RenderNode(ItemNodes(arts)[0]) == Serialize(ItemElems(arts)[0]);
    }
  }

  lemma NewsRenders(arts: seq<Article>)
    ensures NewsText(arts) == SerializeAll(BodyElems(News(arts)))
  {
    ItemsRender(arts);
    var count, list := Num("ArticleCount", |arts|), Group("Articles", ItemElems(arts));
    assert RenderNodes([Node(None, PInt(|arts|))]) == IntToString(|arts|);
    assert [count, list][1..] == [list];
    assert SerializeAll([list]) == Serialize(list);
  }

  /** A body object of fields renders as its fields, inside its root if any. */
  lemma FieldBodyRenders(root: Option<string>, fs: seq<(string, Scalar)>)
    ensures RenderNode(Node(None, PTree(Tree(root, FieldNodes(fs)))))
            == SerializeAll(if root.None? then FieldElems(fs) else [Group(root.value, FieldElems(fs))])
  {
    FieldsRender(fs);
    if root.Some? {
      var g := Group(root.value, FieldElems(fs));
      assert SerializeAll([g]) == Serialize(g) + SerializeAll([]);
    }
  }

  lemma BodyRenders(b: Body)
    ensures RenderNode(Node(None, BodyNode(b))) == SerializeAll(BodyElems(b))
  {
    if b.News? {
      NewsRenders(b.articles);
    } else if !b.Empty? {
      FieldBodyRenders(BodyRoot(b), BodyFields(b));
    }
  }

  /** The text `_create_xml` renders is the serialized reply document. */
  lemma ReplyRendersWireDoc(r: Reply)
    ensures RenderTree(ReplyTree(r)) == Serialize(WireDoc(r))
  {
    BodyRenders(r.body);
    EnvelopeRenders(HeaderFields(r.header, r.body), BodyNode(r.body), BodyElems(r.body));
  }

  /** The `<xml>` object of some fields and a body renders as the document of
      those fields and that body. */
  lemma EnvelopeRenders(fs: seq<(string, Scalar)>, body: PyVal, bodyElems: seq<Elem>)
    requires RenderNode(Node(None, body)) == SerializeAll(bodyElems)
    ensures RenderTree(Tree(Some("xml"), FieldNodes(fs) + [Node(None, body)]))
            == Serialize(Group("xml", FieldElems(fs) + bodyElems))
  {
    var last := Node(None, body);
    RenderNodesConcat(FieldNodes(fs), [last]);
    assert RenderNodes([last]) == RenderNode(last) + RenderNodes([]);
    FieldsRender(fs);
    SerializeAllConcat(FieldElems(fs), bodyElems);
  }

  predicate CleanScalar(v: Scalar) {
    v.SStr? ==> !HasCDataEnd(v.s)
  }

  predicate CleanArticle(a: Article) {
    CleanScalar(a.title) && CleanScalar(a.description) && CleanScalar(a.picUrl) && CleanScalar(a.url)
  }

  /** No text of the reply holds the CDATA end marker `]]>`. */
  predicate CleanReply(r: Reply) {
    && !HasCDataEnd(r.header.fromId) && !HasCDataEnd(r.header.toId)
    && match r.body
       case Empty => true
       case Text(c) => CleanScalar(c)
       case Image(m) => CleanScalar(m)
       case Voice(m) => CleanScalar(m)
       case Video(m, t, d) => CleanScalar(m) && CleanScalar(t) && CleanScalar(d)
       case Music(t, d, u, hq, m) =>
         CleanScalar(t) && CleanScalar(d) && CleanScalar(u) && CleanScalar(hq) && CleanScalar(m)
       case News(arts) => forall i :: 0 <= i < |arts| ==> CleanArticle(arts[i])
  }

  predicate AllWellFormed(es: seq<Elem>) {
    forall i :: 0 <= i < |es| ==> WellFormed(es[i])
  }

  lemma {:induction false} FieldsWellFormed(fs: seq<(string, Scalar)>)
    requires forall i :: 0 <= i < |fs| ==> IsName(fs[i].0) && CleanScalar(fs[i].1)
    ensures AllWellFormed(FieldElems(fs))
  {
    if fs != [] {
      FieldsWellFormed(fs[1..]);
    }
  }

  lemma ArticleWellFormed(a: Article)
    requires CleanArticle(a)
    ensures WellFormed(Group("item", FieldElems(ArticleFields(a))))
  {
    FieldsWellFormed(ArticleFields(a));
  }

  /** The tags of the reply fields are XML names. */
  lemma FieldTagNames()
    ensures IsName("Content") && IsName("MediaId") && IsName("Title") && IsName("Description")
    ensures IsName("MusicUrl") && IsName("HQMusicUrl") && IsName("ThumbMediaId")
  {
  }

  lemma VideoFieldsWellFormed(m: Scalar, t: Scalar, d: Scalar)
    requires CleanScalar(m) && CleanScalar(t) && CleanScalar(d)
    ensures var fs := BodyFields(Video(m, t, d));
            forall i :: 0 <= i < |fs| ==> IsName(fs[i].0) && CleanScalar(fs[i].1)
  {
    FieldTagNames();
  }

  lemma MusicFieldsWellFormed(t: Scalar, d: Scalar, u: Scalar, hq: Scalar, m: Scalar)
    requires CleanScalar(t) && CleanScalar(d) && CleanScalar(u) && CleanScalar(hq) && CleanScalar(m)
    ensures var fs := BodyFields(Music(t, d, u, hq, m));
            forall i :: 0 <= i < |fs| ==> IsName(fs[i].0) && CleanScalar(fs[i].1)
  {
    FieldTagNames();
    var fs := BodyFields(Music(t, d, u, hq, m));
    forall i | 0 <= i < |fs|
      ensures IsName(fs[i].0) && CleanScalar(fs[i].1)
    {
      if i < 2 {
        assert fs[i] == [("Title", t), ("Description", d)][i];
      } else {
        assert fs[i] == [("MusicUrl", u), ("HQMusicUrl", hq), ("ThumbMediaId", m)][i - 2];
      }
    }
  }

  /** The clean texts of a body of fields, and its tags, which are names. */
  lemma BodyFieldsWellFormed(r: Reply)
    requires CleanReply(r) && !r.body.Empty? && !r.body.News?
    ensures forall i :: 0 <= i < |BodyFields(r.body)| ==> IsName(BodyFields(r.body)[i].0) && CleanScalar(BodyFields(r.body)[i].1)
  {
    FieldTagNames();
    match r.body
    case Text(c) =>
    case Image(m) =>
    case Voice(m) =>
    case Video(m, t, d) => VideoFieldsWellFormed(m, t, d);
    case Music(t, d, u, hq, m) => MusicFieldsWellFormed(t, d, u, hq, m);
  }

  lemma BodyRootName(b: Body)
    requires !b.Empty? && !b.News?
    ensures BodyRoot(b).Some? ==> IsName(BodyRoot(b).value)
  {
  }

  lemma BodyWellFormed(r: Reply)
    requires CleanReply(r)
    ensures AllWellFormed(BodyElems(r.body))
  {
    var b := r.body;
    if b.News? {
      forall i | 0 <= i < |b.articles|
        ensures WellFormed(ItemElems(b.articles)[i])
      {
        assert CleanArticle(b.articles[i]);
        ArticleWellFormed(b.articles[i]);
      }
      assert IsName("ArticleCount") && IsName("Articles");
    } else if !b.Empty? {
      BodyFieldsWellFormed(r);
      FieldsWellFormed(BodyFields(b));
      BodyRootName(b);
    }
  }

  /** A reply whose texts are clean is a well-formed document. */
  lemma ReplyWellFormed(r: Reply)
    requires CleanReply(r)
    ensures WellFormed(WireDoc(r))
  {
    FieldsWellFormed(HeaderFields(r.header, r.body));
    BodyWellFormed(r);
    var es := FieldElems(HeaderFields(r.header, r.body)) + BodyElems(r.body);
    assert AllWellFormed(es);
  }

  // ---------------------------------------------------------------------------
  // Building and rendering with `WeChatXML` objects.

  /** `add_ele(tag, value)` for one payload field of a `node()` object holding
      the nodes of the fields `fs` so far. */
  method AddField(x: XmlNode, ghost fs: seq<(string, Scalar)>, tag: string, v: Scalar)
    requires x.Valid() && x.Model.nodes == FieldNodes(fs)
    modifies x
    ensures x.Valid() && x.Repr == old(x.Repr)
    ensures x.Model == Tree(old(x.Model.root), FieldNodes(fs + [(tag, v)]))
  {
    x.AddEle(Some(tag), ToValue(v));
    PlainOfScalar(v);
    FieldNodesSnoc(fs, tag, v);
  }

  /** `TextReply.node()` */
  method TextNode(content: Scalar) returns (x: XmlNode)
    ensures x.Valid() && fresh(x.Repr)
    ensures x.Model == Tree(None, FieldNodes([("Content", content)]))
  {
    x := new XmlNode(None);
    x.AddEle(Some("Content"), ToValue(content));
    PlainOfScalar(content);
  }

  /** `ImageReply.node()` and `VoiceReply.node()` */
  method MediaNode(root: string, mediaId: Scalar) returns (x: XmlNode)
    ensures x.Valid() && fresh(x.Repr)
    ensures x.Model == Tree(Some(root), FieldNodes([("MediaId", mediaId)]))
  {
    x := new XmlNode(Some(root));
    x.AddEle(Some("MediaId"), ToValue(mediaId));
    PlainOfScalar(mediaId);
  }

  /** `VideoReply.node()` */
  method VideoNode(mediaId: Scalar, title: Scalar, description: Scalar) returns (x: XmlNode)
    ensures x.Valid() && fresh(x.Repr)
    ensures x.Model == Tree(Some("Video"), FieldNodes([("MediaId", mediaId), ("Title", title), ("Description", description)]))
  {
    x := new XmlNode(Some("Video"));
    ghost var fs: seq<(string, Scalar)> := [];
    AddField(x, fs, "MediaId", mediaId);
    fs := fs + [("MediaId", mediaId)];
    AddField(x, fs, "Title", title);
    fs := fs + [("Title", title)];
    AddField(x, fs, "Description", description);
    fs := fs + [("Description", description)];
  }

  /** `MusicReply.node()` */
  method MusicNode(title: Scalar, description: Scalar, musicUrl: Scalar, hqMusicUrl: Scalar, thumbMediaId: Scalar)
    returns (x: XmlNode)
    ensures x.Valid() && fresh(x.Repr)
    ensures x.Model == Tree(Some("Music"), FieldNodes([("Title", title), ("Description", description),
                                                       ("MusicUrl", musicUrl), ("HQMusicUrl", hqMusicUrl),
                                                       ("ThumbMediaId", thumbMediaId)]))
  {
    x := new XmlNode(Some("Music"));
    ghost var fs: seq<(string, Scalar)> := [];
    AddField(x, fs, "Title", title);
    fs := fs + [("Title", title)];
    AddField(x, fs, "Description", description);
    fs := fs + [("Description", description)];
    AddField(x, fs, "MusicUrl", musicUrl);
    fs := fs + [("MusicUrl", musicUrl)];
    AddField(x, fs, "HQMusicUrl", hqMusicUrl);
    fs := fs + [("HQMusicUrl", hqMusicUrl)];
    AddField(x, fs, "ThumbMediaId", thumbMediaId);
    fs := fs + [("ThumbMediaId", thumbMediaId)];
  }

  /** One `<item>` of `NewsReply.node()`. */
  method ItemNode(a: Article) returns (x: XmlNode)
    ensures x.Valid() && fresh(x.Repr)
    ensures x.Model == ItemTree(a)
  {
    x := new XmlNode(Some("item"));
    ghost var fs: seq<(string, Scalar)> := [];
    AddField(x, fs, "Title", a.title);
    fs := fs + [("Title", a.title)];
    AddField(x, fs, "Description", a.description);
    fs := fs + [("Description", a.description)];
    AddField(x, fs, "PicUrl", a.picUrl);
    fs := fs + [("PicUrl", a.picUrl)];
    AddField(x, fs, "Url", a.url);
    fs := fs + [("Url", a.url)];
    assert fs == ArticleFields(a);
  }

  /** `NewsReply.node()`: the count, then one item per article in list order,
      joined into text. */
  method NewsNode(arts: seq<Article>) returns (s: string)
    ensures s == NewsText(arts)
  {
    var node1 := new XmlNode(Some("ArticleCount"));
    node1.AddEle(None, VInt(|arts|));
    var node := new XmlNode(Some("Articles"));
    for i := 0 to |arts|
      invariant node.Valid() && fresh(node.Repr) && node1 !in node.Repr
      invariant node1.Valid() && node1.Model == CountTree(|arts|)
      invariant node.Model == Tree(Some("Articles"), ItemNodes(arts[..i]))
    {
      var item := ItemNode(arts[i]);
      node.AddEle(None, VXml(item));
      assert ItemNodes(arts[..i + 1]) == ItemNodes(arts[..i]) + [Node(None, PTree(ItemTree(arts[i])))];
    }
    assert arts[..|arts|] == arts;
    s := node1.Add(VXml(node));
  }

  /** `node()` of each reply class: nothing for the empty reply, text for the
      news reply, an object otherwise. */
  method BuildNode(b: Body) returns (v: Value)
    ensures b.Empty? ==> v == VNone
    ensures b.News? ==> v == VStr(NewsText(b.articles))
    ensures !b.Empty? && !b.News? ==> v.VXml? && v.x.Valid() && fresh(v.x.Repr) && PTree(v.x.Model) == BodyNode(b)
  {
    match b
    case Empty =>
      v := VNone;
    case Text(c) =>
      var x := TextNode(c);
      v := VXml(x);
    case Image(m) =>
      var x := MediaNode("Image", m);
      v := VXml(x);
    case Voice(m) =>
      var x := MediaNode("Voice", m);
      v := VXml(x);
    case Video(m, t, d) =>
      var x := VideoNode(m, t, d);
      v := VXml(x);
    case Music(t, d, u, hq, m) =>
      var x := MusicNode(t, d, u, hq, m);
      v := VXml(x);
    case News(arts) =>
      var s := NewsNode(arts);
      v := VStr(s);
  }

  /** `_create_xml`: the envelope fields in order, then the body. */
  method BuildReply(r: Reply) returns (root: XmlNode)
    ensures root.Valid() && fresh(root.Repr)
    ensures root.Model == ReplyTree(r)
  {
    var h := r.header;
    root := new XmlNode(Some("xml"));
    ghost var fs: seq<(string, Scalar)> := [];
    AddField(root, fs, "FromUserName", SStr(h.fromId));
    fs := fs + [("FromUserName", SStr(h.fromId))];
    AddField(root, fs, "ToUserName", SStr(h.toId));
    fs := fs + [("ToUserName", SStr(h.toId))];
    AddField(root, fs, "CreateTime", SInt(h.time));
    fs := fs + [("CreateTime", SInt(h.time))];
    AddField(root, fs, "MsgType", MsgTypeOf(r.body));
    fs := fs + [("MsgType", MsgTypeOf(r.body))];
    assert fs == HeaderFields(h, r.body);
    var v := BuildNode(r.body);
    root.AddEle(None, v);
  }

  /** `create_xml`: the serialized reply document, or "success" for the empty
      reply. */
  method CreateReplyXml(r: Reply) returns (s: string)
    ensures r.body.Empty? ==> s == "success"
    ensures !r.body.Empty? ==> s == Serialize(WireDoc(r))
  {
    if r.body.Empty? {
      return "success";
    }
    var root := BuildReply(r);
    s := root.Unicode();
    ReplyRendersWireDoc(r);
  }

  /** A reply with clean texts reads back as exactly its document: the
      envelope fields in order, then the body's. */
  lemma ReplyRoundTrip(r: Reply)
    requires CleanReply(r)
    ensures ParseDocument(RenderTree(ReplyTree(r))) == Some(WireDoc(r))
  {
    ReplyRendersWireDoc(r);
    ReplyWellFormed(r);
    DocumentRoundTrip(WireDoc(r));
  }

  // ---------------------------------------------------------------------------
  // NewsReply

  const MaxNumOfNews := 8

  class NewsReply {
    var header: Header
    var news: seq<Article>

    predicate Valid()
      reads this
    {
      1 <= |news| <= MaxNumOfNews
    }

    /** `NewsReply(sender, ...)` with the header already taken from the
        sender: the first article goes through `add_more_news`. */
    constructor (header: Header, first: Article)
      ensures Valid()
      ensures this.header == header && news == [first]
    {
      this.header := header;
      news := [first];
    }

    /** `add_more_news`: a full list is left as it is, otherwise the article
        goes at the end. */
    method AddMoreNews(a: Article)
      requires Valid()
      modifies this
      ensures Valid()
      ensures |old(news)| >= MaxNumOfNews ==> news == old(news)
      ensures |old(news)| < MaxNumOfNews ==> news == old(news) + [a]
      ensures header == old(header)
    {
      if |news| >= MaxNumOfNews {
        return;
      }
      news := news + [a];
    }

    /** `create_xml` of a news reply. */
    method CreateXml() returns (s: string)
      requires Valid()
      ensures s == Serialize(WireDoc(Reply(header, News(news))))
    {
      s := CreateReplyXml(Reply(header, News(news)));
    }
  }

  /** The news body carries the number of articles and one item per article,
      in list order, each with its four fields in order. */
  lemma NewsBodyShape(arts: seq<Article>)
    ensures BodyElems(News(arts))[0] == Num("ArticleCount", |arts|)
    ensures |BodyElems(News(arts))[1].kids| == |arts|
    ensures forall i :: 0 <= i < |arts| ==>
              BodyElems(News(arts))[1].kids[i]
              == Group("item", ScalarElems("Title", arts[i].title) + ScalarElems("Description", arts[i].description)
                               + ScalarElems("PicUrl", arts[i].picUrl) + ScalarElems("Url", arts[i].url))
  {
    forall i | 0 <= i < |arts|
      ensures FieldElems(ArticleFields(arts[i]))
              == ScalarElems("Title", arts[i].title) + ScalarElems("Description", arts[i].description)
                 + ScalarElems("PicUrl", arts[i].picUrl) + ScalarElems("Url", arts[i].url)
    {
      ArticleElems(arts[i]);
    }
  }

  /** The elements of one article: its four fields in order, each present
      unless it is `None`. */
  lemma ArticleElems(a: Article)
    ensures FieldElems(ArticleFields(a))
            == ScalarElems("Title", a.title) + ScalarElems("Description", a.description)
               + ScalarElems("PicUrl", a.picUrl) + ScalarElems("Url", a.url)
  {
    var fs := ArticleFields(a);
    assert FieldElems(fs[3..]) == ScalarElems("Url", a.url) + FieldElems(fs[4..]);
    assert FieldElems(fs[2..]) == ScalarElems("PicUrl", a.picUrl) + FieldElems(fs[3..]);
    assert FieldElems(fs[1..]) == ScalarElems("Description", a.description) + FieldElems(fs[2..]);
    assert fs[4..] == [];
  }
}

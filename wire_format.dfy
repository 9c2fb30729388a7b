/** The reply document the platform expects, as a tree of elements, with its
    serialization and a decoder for exactly the shapes the encoder produces.
    The round-trip lemma is the well-formedness argument: as long as no text
    holds `]]>` and every tag is an XML name, the serialized document reads
    back as the same tree. */
module WireFormat {
  import opened Common

  /** `<tag><![CDATA[text]]></tag>`, `<tag>n</tag>` or `<tag>kids</tag>`. */
  datatype Elem =
    | Text(tag: string, text: string)
    | Num(tag: string, n: int)
    | Group(tag: string, kids: seq<Elem>)

  function Serialize(e: Elem): string
  {
    match e
    case Text(t, x) => OpenTag(t) + CData(x) + CloseTag(t)
    case Num(t, n) => OpenTag(t) + IntToString(n) + CloseTag(t)
    case Group(t, ks) => OpenTag(t) + SerializeAll(ks) + CloseTag(t)
  }

  function SerializeAll(es: seq<Elem>): string
  {
    if es == [] then "" else Serialize(es[0]) + SerializeAll(es[1..])
  }

  lemma {:induction false} SerializeAllConcat(a: seq<Elem>, b: seq<Elem>)
    ensures SerializeAll(a + b) == SerializeAll(a) + SerializeAll(b)
  {
    if a == [] {
      assert a + b == b;
    } else {
      assert (a + b)[1..] == a[1..] + b;
      SerializeAllConcat(a[1..], b);
    }
  }

  // ---------------------------------------------------------------------------
  // Well-formedness conditions: names (an ASCII subset of the Name production of
  // section 2.3 of XML 1.0) and CDATA contents without the end marker.

  predicate NameStartChar(c: char) {
    'A' <= c <= 'Z' || 'a' <= c <= 'z' || c == '_' || c == ':'
  }

  predicate NameChar(c: char) {
    NameStartChar(c) || IsDigit(c) || c == '-' || c == '.'
  }

  predicate IsName(t: string) {
    |t| > 0 && NameStartChar(t[0]) && forall i :: 0 <= i < |t| ==> NameChar(t[i])
  }

  /** Does `]]>` occur in `s`? */
  predicate HasCDataEnd(s: string) {
    exists i :: 0 <= i && i + 2 < |s| && s[i] == ']' && s[i + 1] == ']' && s[i + 2] == '>'
  }

  predicate WellFormed(e: Elem) {
    match e
    case Text(t, x) => IsName(t) && !HasCDataEnd(x)
    case Num(t, _) => IsName(t)
    case Group(t, ks) => IsName(t) && forall i :: 0 <= i < |ks| ==> WellFormed(ks[i])
  }

  // ---------------------------------------------------------------------------
  // The decoder.

  /** Name characters up to a `>`: the name and what follows the `>`. */
  function ReadName(s: string): (r: Option<(string, string)>)
    ensures r.Some? ==> |r.value.1| < |s|
  {
    if |s| == 0 then None
    else if s[0] == '>' then Some(("", s[1..]))
    else if !NameChar(s[0]) then None
    else
      match ReadName(s[1..])
      case None => None
      case Some((n, rest)) => Some(([s[0]] + n, rest))
  }

  /** Character data up to the first `]]>`: the data and what follows the marker. */
  function ReadCData(s: string): (r: Option<(string, string)>)
    ensures r.Some? ==> |r.value.1| < |s|
  {
    if StartsWith(s, "]]>") then Some(("", s[3..]))
    else if |s| == 0 then None
    else
      match ReadCData(s[1..])
      case None => None
      case Some((x, rest)) => Some(([s[0]] + x, rest))
  }

  /** Characters up to the first `<`. */
  function ReadText(s: string): (r: (string, string))
    ensures |r.1| <= |s|
  {
    if |s| == 0 || s[0] == '<' then ("", s)
    else
      var (x, rest) := ReadText(s[1..]);
      ([s[0]] + x, rest)
  }

  function ParseNat(s: string): Option<nat>
  {
    if |s| == 0 || !IsDigit(s[|s| - 1]) then None
    else if |s| == 1 then Some(DigitValue(s[0]))
    else
      match ParseNat(s[..|s| - 1])
      case None => None
      case Some(m) => Some(m * 10 + DigitValue(s[|s| - 1]))
  }

  function ParseInt(s: string): Option<int>
  {
    if |s| > 0 && s[0] == '-' then
      match ParseNat(s[1..])
      case None => None
      case Some(m) => Some(0 - m as int)
    else
      match ParseNat(s)
      case None => None
      case Some(m) => Some(m)
  }

  function ExpectClose(tag: string, s: string): (r: Option<string>)
    ensures r.Some? ==> |r.value| < |s|
  {
    if StartsWith(s, CloseTag(tag)) then Some(s[|CloseTag(tag)|..]) else None
  }

  /** An element: its opening tag, then what the first characters after it
      say it holds. */
  function ParseElem(s: string): (r: Option<(Elem, string)>)
    ensures r.Some? ==> |r.value.1| < |s|
    decreases |s|, 0
  {
    if |s| == 0 || s[0] != '<' then None
    else
      match ReadName(s[1..])
      case None => None
      case Some((tag, body)) => if !IsName(tag) then None else ParseContent(tag, body)
  }

  /** What follows an opening tag: a CDATA section, a number or child elements,
      then the closing tag. */
  function ParseContent(tag: string, body: string): (r: Option<(Elem, string)>)
    ensures r.Some? ==> |r.value.1| < |body|
    decreases |body|, 3
  {
    if StartsWith(body, "<![CDATA[") then ParseTextElem(tag, body[9..])
    else if |body| > 0 && body[0] != '<' then ParseNumElem(tag, body)
    else ParseGroupElem(tag, body)
  }

  function ParseTextElem(tag: string, s: string): (r: Option<(Elem, string)>)
    ensures r.Some? ==> |r.value.1| < |s|
  {
    match ReadCData(s)
    case None => None
    case Some((text, after)) =>
      match ExpectClose(tag, after)
      case None => None
      case Some(rest) => Some((Text(tag, text), rest))
  }

  function ParseNumElem(tag: string, s: string): (r: Option<(Elem, string)>)
    ensures r.Some? ==> |r.value.1| < |s|
  {
    var (digits, after) := ReadText(s);
    match ParseInt(digits)
    case None => None
    case Some(n) =>
      match ExpectClose(tag, after)
      case None => None
      case Some(rest) => Some((Num(tag, n), rest))
  }

  function ParseGroupElem(tag: string, s: string): (r: Option<(Elem, string)>)
    ensures r.Some? ==> |r.value.1| < |s|
    decreases |s|, 2
  {
    match ParseKids(s)
    case None => None
    case Some((kids, after)) =>
      match ExpectClose(tag, after)
      case None => None
      case Some(rest) => Some((Group(tag, kids), rest))
  }

  /** Elements up to the closing tag of their parent. */
  function ParseKids(s: string): (r: Option<(seq<Elem>, string)>)
    ensures r.Some? ==> |r.value.1| <= |s|
    decreases |s|, 1
  {
    if StartsWith(s, "</") then Some(([], s))
    else
      match ParseElem(s)
      case None => None
      case Some((e, rest)) =>
        match ParseKids(rest)
        case None => None
        case Some((es, after)) => Some(([e] + es, after))
  }

  /** A whole document: one element and nothing after it. */
  function ParseDocument(s: string): Option<Elem>
  {
    match ParseElem(s)
    case Some((e, rest)) => if rest == "" then Some(e) else None
    case None => None
  }

  // ---------------------------------------------------------------------------
  // Round trip.

  lemma {:induction false} ReadNameRoundTrip(t: string, rest: string)
    requires forall i :: 0 <= i < |t| ==> NameChar(t[i])
    ensures ReadName(t + ">" + rest) == Some((t, rest))
  {
    var s := t + ">" + rest;
    if t == [] {
      assert s == ">" + rest;
    } else {
      assert s[0] == t[0];
      assert s[1..] == t[1..] + ">" + rest;
      ReadNameRoundTrip(t[1..], rest);
      assert [t[0]] + t[1..] == t;
    }
  }

  lemma {:induction false} ReadCDataRoundTrip(x: string, rest: string)
    requires !HasCDataEnd(x)
    ensures ReadCData(x + "]]>" + rest) == Some((x, rest))
  {
    var s := x + "]]>" + rest;
    if x == [] {
      assert s == "]]>" + rest;
      assert s[..3] == "]]>";
    } else {
      if |x| >= 3 {
        assert s[..3] == x[..3];
        assert !(x[0] == ']' && x[1] == ']' && x[2] == '>');
      } else {
        assert s[2] == ']';
      }
      assert s[1..] == x[1..] + "]]>" + rest;
      ReadCDataRoundTrip(x[1..], rest);
      assert [x[0]] + x[1..] == x;
    }
  }

  lemma {:induction false} ReadTextRoundTrip(d: string, rest: string)
    requires forall i :: 0 <= i < |d| ==> d[i] != '<'
    requires |rest| == 0 || rest[0] == '<'
    ensures ReadText(d + rest) == (d, rest)
  {
    if d == [] {
      assert d + rest == rest;
    } else {
      assert (d + rest)[1..] == d[1..] + rest;
      ReadTextRoundTrip(d[1..], rest);
      assert [d[0]] + d[1..] == d;
    }
  }

  lemma {:induction false} ParseNatRoundTrip(n: nat)
    ensures ParseNat(NatToString(n)) == Some(n)
    decreases n
  {
    var s := NatToString(n);
    if n >= 10 {
      assert s[..|s| - 1] == NatToString(n / 10);
      ParseNatRoundTrip(n / 10);
    }
  }

  lemma ParseIntRoundTrip(n: int)
    ensures ParseInt(IntToString(n)) == Some(n)
  {
    var s := IntToString(n);
    if n < 0 {
      assert s[0] == '-';
      assert s[1..] == NatToString(-n);
      ParseNatRoundTrip(-n);
    } else {
      assert IsDigit(s[0]);
      ParseNatRoundTrip(n);
    }
  }

  /** A serialized element starts with `<` and a name-start character, which is
      how the decoder tells it from a closing tag and from a CDATA section. */
  lemma SerializeStart(e: Elem)
    requires WellFormed(e)
    ensures |Serialize(e)| >= 2 && Serialize(e)[0] == '<' && NameStartChar(Serialize(e)[1])
  {
    assert Serialize(e)[1] == e.tag[0];
  }

  /** The decoder reads an opening tag back. */
  lemma ReadOpen(t: string, body: string)
    requires IsName(t)
    ensures var s := "<" + (t + ">" + body);
            ParseElem(s) == ParseContent(t, body)
  {
    var s := "<" + (t + ">" + body);
    assert s[1..] == t + ">" + body;
    ReadNameRoundTrip(t, body);
  }

  /** A text starts with its prefix, and what follows the prefix is the rest. */
  lemma PrefixSplit(p: string, q: string)
    ensures StartsWith(p + q, p) && (p + q)[|p|..] == q
  {
    assert (p + q)[..|p|] == p;
  }

  /** A text whose first or second character differs from the marker's does
      not open a CDATA section. */
  lemma NotCData(body: string)
    requires |body| > 0 && (body[0] != '<' || (|body| > 1 && body[1] != '!'))
    ensures !StartsWith(body, "<![CDATA[")
  {
    if |body| >= 9 {
      assert body[..9][0] == body[0] && body[..9][1] == body[1];
    }
  }

  /** The decoder reads a closing tag back. */
  lemma ReadClose(t: string, rest: string)
    ensures ExpectClose(t, CloseTag(t) + rest) == Some(rest)
  {
    PrefixSplit(CloseTag(t), rest);
  }

  lemma TextRoundTrip(t: string, x: string, rest: string)
    requires WellFormed(Text(t, x))
    ensures ParseElem(Serialize(Text(t, x)) + rest) == Some((Text(t, x), rest))
  {
    var close := CloseTag(t) + rest;
    var inner := x + "]]>" + close;
    var body := "<![CDATA[" + inner;
    assert Serialize(Text(t, x)) + rest == "<" + (t + ">" + body);
    ReadOpen(t, body);
    PrefixSplit("<![CDATA[", inner);
    assert ParseContent(t, body) == ParseTextElem(t, inner);
    ReadCDataRoundTrip(x, close);
    ReadClose(t, rest);
  }

  lemma NumRoundTrip(t: string, n: int, rest: string)
    requires WellFormed(Num(t, n))
    ensures ParseElem(Serialize(Num(t, n)) + rest) == Some((Num(t, n), rest))
  {
    var digits := IntToString(n);
    var close := CloseTag(t) + rest;
    var body := digits + close;
    assert Serialize(Num(t, n)) + rest == "<" + (t + ">" + body);
    ReadOpen(t, body);
    assert body[0] == digits[0];
    NotCData(body);
    assert ParseContent(t, body) == ParseNumElem(t, body);
    ReadTextRoundTrip(digits, close);
    ParseIntRoundTrip(n);
    ReadClose(t, rest);
  }

  /** The children of a group, followed by a closing tag, start with `<` and
      are no CDATA section. */
  lemma KidsStart(ks: seq<Elem>, close: string)
    requires forall i :: 0 <= i < |ks| ==> WellFormed(ks[i])
    requires StartsWith(close, "</")
    ensures var body := SerializeAll(ks) + close;
            |body| > 1 && body[0] == '<' && body[1] != '!'
  {
    if ks == [] {
      assert SerializeAll(ks) + close == close;
      assert close[1] == close[..2][1];
    } else {
      var all := SerializeAll(ks);
      var head := Serialize(ks[0]);
      SerializeStart(ks[0]);
      assert all == head + SerializeAll(ks[1..]);
      assert all[0] == head[0] && all[1] == head[1];
    }
  }

  lemma {:induction false} GroupRoundTrip(t: string, ks: seq<Elem>, rest: string)
    requires WellFormed(Group(t, ks))
    ensures ParseElem(Serialize(Group(t, ks)) + rest) == Some((Group(t, ks), rest))
    decreases ks, 1
  {
    var close := CloseTag(t) + rest;
    var body := SerializeAll(ks) + close;
    assert Serialize(Group(t, ks)) + rest == "<" + (t + ">" + body);
    ReadOpen(t, body);
    KidsStart(ks, close);
    NotCData(body);
    assert ParseContent(t, body) == ParseGroupElem(t, body);
    ParseKidsRoundTrip(ks, close);
    ReadClose(t, rest);
  }

  lemma {:induction false} ParseElemRoundTrip(e: Elem, rest: string)
    requires WellFormed(e)
    ensures ParseElem(Serialize(e) + rest) == Some((e, rest))
    decreases e, 2
  {
    match e
    case Text(t, x) => TextRoundTrip(t, x, rest);
    case Num(t, n) => NumRoundTrip(t, n, rest);
    case Group(t, ks) => GroupRoundTrip(t, ks, rest);
  }

  /** One element in front of the rest of a list: the decoder takes it and
      goes on after it. */
  lemma ParseKidsStep(s: string, e: Elem, tail: string, es: seq<Elem>, rest: string)
    requires !StartsWith(s, "</")
    requires ParseElem(s) == Some((e, tail))
    requires ParseKids(tail) == Some((es, rest))
    ensures ParseKids(s) == Some(([e] + es, rest))
  {
  }

  /** A serialized element is no closing tag. */
  lemma NotClosing(e: Elem, tail: string)
    requires WellFormed(e)
    ensures !StartsWith(Serialize(e) + tail, "</")
  {
    SerializeStart(e);
    assert (Serialize(e) + tail)[1] == Serialize(e)[1];
  }

  lemma {:induction false} ParseKidsRoundTrip(es: seq<Elem>, rest: string)
    requires forall i :: 0 <= i < |es| ==> WellFormed(es[i])
    requires StartsWith(rest, "</")
    ensures ParseKids(SerializeAll(es) + rest) == Some((es, rest))
    decreases es, 0
  {
    if es == [] {
      assert SerializeAll(es) + rest == rest;
    } else {
      var tail := SerializeAll(es[1..]) + rest;
      assert SerializeAll(es) + rest == Serialize(es[0]) + tail;
      NotClosing(es[0], tail);
      ParseElemRoundTrip(es[0], tail);
      assert forall i :: 0 <= i < |es[1..]| ==> WellFormed(es[1..][i]) by {
        forall i | 0 <= i < |es[1..]| ensures WellFormed(es[1..][i]) {
          assert es[1..][i] == es[i + 1];
        }
      }
      ParseKidsRoundTrip(es[1..], rest);
      ParseKidsStep(Serialize(es[0]) + tail, es[0], tail, es[1..], rest);
      assert [es[0]] + es[1..] == es;
    }
  }

  /** Decoding a serialized well-formed document gives the document back. */
  lemma DocumentRoundTrip(e: Elem)
    requires WellFormed(e)
    ensures ParseDocument(Serialize(e)) == Some(e)
  {
    ParseElemRoundTrip(e, "");
    assert Serialize(e) + "" == Serialize(e);
  }
}

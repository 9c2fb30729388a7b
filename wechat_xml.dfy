/** `WeChatXML` (WXApi/WXApi/event.py:214-262): an optional root tag and an
    ordered list of (tag, value) nodes that renders itself in one pass. */
module WeChatXml {
  import opened Common

  // ---------------------------------------------------------------------------
  // The value a `WeChatXML` object stands for: its root and its nodes, with a
  // nested object replaced by the tree it stands for.

  datatype PyVal = PNone | PInt(i: int) | PStr(s: string) | PTree(t: Tree)
  datatype Node = Node(tag: Option<string>, value: PyVal)
  datatype Tree = Tree(root: Option<string>, nodes: seq<Node>)

  function OpenRoot(root: Option<string>): string {
    if root.None? then "" else OpenTag(root.value)
  }

  function CloseRoot(root: Option<string>): string {
    if root.None? then "" else CloseTag(root.value)
  }

  /** The six node shapes of `__unicode__`, tried in the source's order; any
      other pairing (a tag with `None`, or `(None, None)`) is only warned about
      and contributes nothing. */
  function RenderNode(nd: Node): string
    decreases nd
  {
    var tag, v := nd.tag, nd.value;
    if tag.Some? && v.PInt? then OpenTag(tag.value) + IntToString(v.i) + CloseTag(tag.value)
    else if tag.Some? && !v.PNone? then
      OpenTag(tag.value) + CData(if v.PStr? then v.s else RenderTree(v.t)) + CloseTag(tag.value)
    else if tag.None? && v.PInt? then IntToString(v.i)
    else if tag.None? && v.PStr? then v.s
    else if tag.None? && v.PTree? then RenderTree(v.t)
    else ""
  }

  function RenderNodes(ns: seq<Node>): string
    decreases ns
  {
    if ns == [] then "" else RenderNode(ns[0]) + RenderNodes(ns[1..])
  }

  function RenderTree(t: Tree): string
    decreases t
  {
    OpenRoot(t.root) + RenderNodes(t.nodes) + CloseRoot(t.root)
  }

  /** Nodes render one after the other, in insertion order. */
  lemma {:induction false} RenderNodesConcat(a: seq<Node>, b: seq<Node>)
    ensures RenderNodes(a + b) == RenderNodes(a) + RenderNodes(b)
  {
    if a == [] {
      assert a + b == b;
    } else {
      assert (a + b)[1..] == a[1..] + b;
      RenderNodesConcat(a[1..], b);
    }
  }

  /** One more node extends the rendering of a prefix by that node's text. */
  lemma RenderNodesSnoc(head: string, ns: seq<Node>, i: nat, piece: string)
    requires i < |ns|
    requires piece == RenderNode(ns[i])
    ensures head + RenderNodes(ns[..i]) + piece == head + RenderNodes(ns[..i + 1])
  {
    assert ns[..i + 1] == ns[..i] + [ns[i]];
    RenderNodesConcat(ns[..i], [ns[i]]);
    assert RenderNodes([ns[i]]) == piece;
  }

  // ---------------------------------------------------------------------------
  // The object itself.

  /** What `add_ele` accepts as a value: `None`, an int, a string or another
      `WeChatXML` object. */
  datatype Value = VNone | VInt(i: int) | VStr(s: string) | VXml(x: XmlNode)

  datatype Item = Item(tag: Option<string>, value: Value)

  /** The picture of a value that holds no object. */
  function Plain(v: Value): PyVal
    requires !v.VXml?
  {
    match v
    case VNone => PNone
    case VInt(i) => PInt(i)
    case VStr(s) => PStr(s)
  }

  class XmlNode {
    var root: Option<string>
    var node: seq<Item>

    /** The tree this object renders, with nested objects replaced by theirs. */
    ghost var Model: Tree
    ghost var Repr: set<object>

    ghost predicate Valid()
      reads this, Repr
      decreases Repr
    {
      && this in Repr
      && Model.root == root
      && |Model.nodes| == |node|
      && forall i :: 0 <= i < |node| ==>
           && Model.nodes[i].tag == node[i].tag
           && (node[i].value.VXml? ==>
                 var x := node[i].value.x;
                 x in Repr && x.Repr <= Repr && this !in x.Repr && x.Valid()
                 && Model.nodes[i].value == PTree(x.Model))
           && (!node[i].value.VXml? ==> Model.nodes[i].value == Plain(node[i].value))
    }

    /** `WeChatXML(root_name)`: no nodes yet. */
    constructor (rootName: Option<string>)
      ensures Valid() && fresh(Repr)
      ensures Model == Tree(rootName, [])
    {
      root := rootName;
      node := [];
      Model := Tree(rootName, []);
      Repr := {this};
    }

    /** `add_ele(tag, value)`: append one node at the end. A nested object must
        be complete and must not contain this one. */
    method AddEle(tag: Option<string>, value: Value)
      requires Valid()
      requires value.VXml? ==> value.x.Valid() && this !in value.x.Repr
      modifies this
      ensures Valid()
      ensures Model == Tree(old(Model.root),
                           old(Model.nodes) + [Node(tag, if value.VXml? then PTree(value.x.Model) else Plain(value))])
      ensures Repr == old(Repr) + (if value.VXml? then value.x.Repr else {})
    {
      node := node + [Item(tag, value)];
      if value.VXml? {
        Model := Model.(nodes := Model.nodes + [Node(tag, PTree(value.x.Model))]);
        Repr := Repr + value.x.Repr;
      } else {
        Model := Model.(nodes := Model.nodes + [Node(tag, Plain(value))]);
      }
    }

    /** `__unicode__`: the root's opening tag, every node in order, the root's
        closing tag. */
    method Unicode() returns (s: string)
      requires Valid()
      ensures s == RenderTree(Model)
      decreases Repr, 1
    {
      var buf := if root.None? then "" else "<" + root.value + ">";
      var i := 0;
      while i < |node|
        invariant 0 <= i <= |node|
        invariant buf == OpenRoot(Model.root) + RenderNodes(Model.nodes[..i])
      {
        var piece := NodeString(i);
        RenderNodesSnoc(OpenRoot(Model.root), Model.nodes, i, piece);
        buf := buf + piece;
        i := i + 1;
      }
      assert Model.nodes[..i] == Model.nodes;
      s := buf + (if root.None? then "" else "</" + root.value + ">");
    }

    /** What `Valid` says about node `i`. */
    lemma NodeFacts(i: nat)
      requires Valid() && i < |node|
      ensures Model.nodes[i].tag == node[i].tag
      ensures node[i].value.VXml? ==> node[i].value.x.Valid() && node[i].value.x.Repr < Repr
                                      && Model.nodes[i].value == PTree(node[i].value.x.Model)
      ensures !node[i].value.VXml? ==> Model.nodes[i].value == Plain(node[i].value)
    {
    }

    /** One turn of the loop in `__unicode__`: the text of node `i`. */
    method NodeString(i: nat) returns (piece: string)
      requires Valid()
      requires i < |node|
      ensures piece == RenderNode(Model.nodes[i])
      decreases Repr, 0
    {
      var tag, value := node[i].tag, node[i].value;
      NodeFacts(i);
      if tag.Some? && value.VInt? {
        piece := OpenTag(tag.value) + IntToString(value.i) + CloseTag(tag.value);
      } else if tag.Some? && !value.VNone? {
        var text: string;
        if value.VXml? {
          text := value.x.Unicode();
        } else {
          text := value.s;
        }
        piece := OpenTag(tag.value) + CData(text) + CloseTag(tag.value);
      } else if tag.None? && value.VInt? {
        piece := IntToString(value.i);
      } else if tag.None? && value.VStr? {
        piece := value.s;
      } else if tag.None? && value.VXml? {
        piece := value.x.Unicode();
      } else {
        piece := "";
      }
    }

    /** `self + other`: this rendering followed by the other object's, or this
        rendering alone when `other` is not a `WeChatXML` object. */
    method Add(other: Value) returns (s: string)
      requires Valid()
      requires other.VXml? ==> other.x.Valid()
      ensures s == RenderTree(Model) + (if other.VXml? then RenderTree(other.x.Model) else "")
    {
      s := Unicode();
      if other.VXml? {
        var t := other.x.Unicode();
        s := s + t;
      }
    }
  }
}

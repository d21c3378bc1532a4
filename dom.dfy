/**
 * The part of the DOM the shader loader reads: a script element with a
 * `type` attribute and its child nodes in sibling order.
 */
module Dom {

  /** Node.TEXT_NODE. */
  const TEXT_NODE := 3

  datatype Node = Node(nodeType: int, textContent: string)

  /** A resolved <script> element: its `type` string and its children. */
  datatype ScriptElement = ScriptElement(scriptType: string, children: seq<Node>)

  predicate IsText(n: Node) {
    n.nodeType == TEXT_NODE
  }

  /** The text nodes among `nodes`, in order. */
  function TextNodes(nodes: seq<Node>): (r: seq<Node>)
    ensures |r| <= |nodes|
    ensures forall n :: n in r <==> n in nodes && IsText(n)
  {
    if nodes == [] then []
    else (if IsText(nodes[0]) then [nodes[0]] else []) + TextNodes(nodes[1..])
  }

  /** The concatenation of the `textContent` of `nodes`, in order. */
  function Join(nodes: seq<Node>): string {
    if nodes == [] then "" else nodes[0].textContent + Join(nodes[1..])
  }

  /** Reference definition: keep the text nodes, then concatenate their text. */
  function TextContent(nodes: seq<Node>): string {
    Join(TextNodes(nodes))
  }

  lemma {:induction false} TextNodesAppend(a: seq<Node>, b: seq<Node>)
    ensures TextNodes(a + b) == TextNodes(a) + TextNodes(b)
  {
    if a == [] {
      assert a + b == b;
    } else {
      assert (a + b)[1..] == a[1..] + b;
      TextNodesAppend(a[1..], b);
    }
  }

  lemma {:induction false} JoinAppend(a: seq<Node>, b: seq<Node>)
    ensures Join(a + b) == Join(a) + Join(b)
  {
    if a == [] {
      assert a + b == b;
    } else {
      assert (a + b)[1..] == a[1..] + b;
      JoinAppend(a[1..], b);
    }
  }

  /** The text of a sequence of children is the text of its parts, in order. */
  lemma TextContentAppend(a: seq<Node>, b: seq<Node>)
    ensures TextContent(a + b) == TextContent(a) + TextContent(b)
  {
    TextNodesAppend(a, b);
    JoinAppend(TextNodes(a), TextNodes(b));
  }

  /** A single child contributes its text exactly when it is a text node. */
  lemma TextContentSingle(n: Node)
    ensures TextContent([n]) == if IsText(n) then n.textContent else ""
  {
    assert [n][1..] == [];
    assert TextNodes([n]) == if IsText(n) then [n] else [];
    assert Join([n]) == n.textContent + Join([]);
  }

  /** A child that is not a text node contributes nothing, wherever it stands. */
  lemma TextContentIgnoresNonText(a: seq<Node>, n: Node, b: seq<Node>)
    requires !IsText(n)
    ensures TextContent(a + [n] + b) == TextContent(a + b)
  {
    TextContentAppend(a + [n], b);
    TextContentAppend(a, [n]);
    TextContentSingle(n);
    TextContentAppend(a, b);
  }

  /** When every child is a text node, all of their text is kept. */
  lemma {:induction false} TextContentAllText(nodes: seq<Node>)
    requires forall i :: 0 <= i < |nodes| ==> IsText(nodes[i])
    ensures TextContent(nodes) == Join(nodes)
  {
    if nodes != [] {
      TextContentAllText(nodes[1..]);
    }
  }
}
